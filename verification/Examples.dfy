/** Concrete runs, step by step: a page is created, sent, and refreshed, scraped or refused; a memo is about
    to be enriched; a file is uploaded. */
module Examples {
  import opened Schema
  import opened Transactions
  import opened Protocol
  import Text

  lemma Then(states: seq<System>, steps: seq<Step>, step: Step, t: System)
    returns (states': seq<System>, steps': seq<Step>)
    requires IsRun(states, steps) && Next(states[|steps|], step, t)
    ensures IsRun(states', steps') && |steps'| == |steps| + 1
    ensures states' == states + [t] && steps' == steps + [step] && states'[|steps'|] == t
  {
    states', steps' := states + [t], steps + [step];
    forall i | 0 <= i < |steps'| ensures Next(states'[i], steps'[i], states'[i + 1]) {
      if i < |steps| {
        assert steps'[i] == steps[i];
      }
    }
  }

  lemma LeaseOne(s: System, token: Uuid, e: Uuid)
    requires token in s.dispatchers && s.dispatchers[token].batch == []
    requires s.db.outbox.Keys == {e} && Claimable(s.db.outbox[e])
    ensures DispatchNext(s, token, Lease([e]),
                         s.(db := s.db.(outbox := map[e := s.db.outbox[e].(lock := Some(token))]),
                            dispatchers := s.dispatchers[token := Dispatcher([ClaimedEvent(e, s.db.outbox[e])], Unsent)]))
  {
    assert Elements([e]) == {e} by {
      assert [e][0] == e;
    }
    assert e in s.db.outbox.Keys;
    assert forall x :: x in s.db.outbox ==> x in s.db.outbox.Keys;
    assert ClaimEvents(s.db, token, {e}).outbox == map[e := s.db.outbox[e].(lock := Some(token))];
    assert DoLease(s, token, [e]).dispatchers[token].batch == [ClaimedEvent(e, s.db.outbox[e])];
  }

  lemma DifferentTypes()
    ensures SCRAPE_COMPLETED != SCRAPE_FAILED
  {
  }

  /** A message of the queue is received, and its document read. */
  function Read(s: System, m: ScrapeResult): System
    requires m.job in s.db.jobs
  {
    s.(consumer := HasDocument(m, s.db.jobs[m.job], FindLive(s.db, m.document)))
  }

  ghost predicate Readable(s: System, m: ScrapeResult) {
    && s.consumer.Waiting? && m in s.results && ValidEnvelope(m) && (m.eventType == SCRAPE_FAILED || m.content != "")
    && m.job in s.db.jobs && MatchesJob(m, s.db.jobs[m.job])
  }

  lemma ReadNext(s: System, m: ScrapeResult)
    requires Readable(s, m)
    ensures var t := s.(consumer := HasJob(m, s.db.jobs[m.job]));
            ConsumeNext(s, Receive(m, ""), t) && ConsumeNext(t, ReadDocument, Read(s, m))
  {
    DifferentTypes();
  }

  lemma ThenRead(states: seq<System>, steps: seq<Step>, m: ScrapeResult) returns (states': seq<System>, steps': seq<Step>)
    requires IsRun(states, steps) && Readable(states[|steps|], m)
    ensures IsRun(states', steps') && states'[|steps'|] == Read(states[|steps|], m)
  {
    var s := states[|steps|];
    ReadNext(s, m);
    states', steps' := Then(states, steps, Consume(Receive(m, "")), s.(consumer := HasJob(m, s.db.jobs[m.job])));
    states', steps' := Then(states', steps', Consume(ReadDocument), Read(s, m));
  }

  lemma CommitNext(s: System, job: Uuid)
    requires s.consumer.HasDocument? && Fresh(s, [job])
    ensures ConsumeNext(s, Commit(job), DoCommit(s, job))
  {
  }

  // ----- a document is removed and cleaned up -----

  /** Deleted, with a cleanup that has succeeded. */
  function Wiped(db: Db, d: Uuid): Db
    requires d in db.documents
  {
    db.(documents := db.documents[d := db.documents[d].(deleted := true)], cleanup := db.cleanup[d := CleanupJob(Succeeded, 1)])
  }

  function Removed(s: System, d: Uuid): System
    requires d in s.db.documents
  {
    s.(db := s.db.(documents := s.db.documents[d := s.db.documents[d].(deleted := true)],
                   cleanup := s.db.cleanup[d := CleanupJob(Queued, 0)]))
  }

  function Claimed(s: System, d: Uuid): System {
    s.(db := s.db.(cleanup := s.db.cleanup[d := CleanupJob(Processing, 1)]), cleaner := Cleaner([d], Unlisted))
  }

  lemma RemoveNext(s: System, d: Uuid)
    requires s.db.Live(d) && d !in s.db.cleanup
    ensures ApiNext(s, Remove(s.db.documents[d].owner, d), Removed(s, d))
  {
  }

  lemma ClaimedNext(s: System, d: Uuid)
    requires !CleanerBusy(s) && d in s.db.cleanup && s.db.cleanup[d] == CleanupJob(Queued, 0)
    ensures CleanNext(s, TakeCleanup([d]), Claimed(s, d))
  {
  }

  ghost predicate OnlyCleaned(s: System, t: System) {
    t == s.(db := t.db, cleaner := t.cleaner, undeleted := t.undeleted,
              files := s.files.(deleted := t.files.deleted))
  }

  /** Everything on the list is deleted, and the cleanup completes. */
  lemma {:induction false} DeletedAll(states: seq<System>, steps: seq<Step>, d: Uuid)
    returns (states': seq<System>, steps': seq<Step>)
    requires IsRun(states, steps)
    requires var s := states[|steps|];
             && s.cleaner.batch == [d] && s.cleaner.stage.Deleting?
             && d in s.db.cleanup && s.db.cleanup[d] == CleanupJob(Processing, 1)
    ensures IsRun(states', steps') && states <= states' && |steps| < |steps'|
    ensures var s, t := states[|steps|], states'[|steps'|];
            && OnlyCleaned(s, t) && t.cleaner == Cleaner([], Unlisted)
            && t.db == s.db.(cleanup := s.db.cleanup[d := CleanupJob(Succeeded, 1)])
    decreases |states[|steps|].cleaner.stage.todo|
  {
    var s := states[|steps|];
    if s.cleaner.stage.todo == {} {
      states', steps' := Then(states, steps, Cleaning(CleanStep.Complete), DoComplete(s));
    } else {
      var target :| target in s.cleaner.stage.todo;
      states', steps' := Then(states, steps, Cleaning(DeleteObject(target)), DoDeleteObject(s, target));
      states', steps' := DeletedAll(states', steps', d);
    }
  }

  lemma CleanedUp(states: seq<System>, steps: seq<Step>, d: Uuid) returns (states': seq<System>, steps': seq<Step>)
    requires IsRun(states, steps)
    requires var s := states[|steps|]; !CleanerBusy(s) && s.db.Live(d) && d !in s.db.cleanup
    ensures IsRun(states', steps') && states <= states' && |steps| < |steps'|
    ensures var s, t := states[|steps|], states'[|steps'|];
            t.db == Wiped(s.db, d) && OnlyCleaned(s, t) && t.cleaner == Cleaner([], Unlisted)
  {
    var s := states[|steps|];
    RemoveNext(s, d);
    states', steps' := Then(states, steps, Api(Remove(s.db.documents[d].owner, d)), Removed(s, d));
    ClaimedNext(Removed(s, d), d);
    var t := Claimed(Removed(s, d), d);
    states', steps' := Then(states', steps', Cleaning(TakeCleanup([d])), t);
    states', steps' := Then(states', steps', Cleaning(List), DoList(t));
    states', steps' := DeletedAll(states', steps', d);
    assert s.db.cleanup[d := CleanupJob(Queued, 0)][d := CleanupJob(Processing, 1)][d := CleanupJob(Succeeded, 1)]
        == s.db.cleanup[d := CleanupJob(Succeeded, 1)];
  }

  // ----- a page is created, leased and sent -----

  const ACCOUNT := Account(User, Free, false)
  const PAGE := Document(1, Webpage, "u", "", "", ScrapePending, 1, 0, false)
  const REQUEST := ScrapeRequest(3, 2, 1, "u")
  const EVENT := OutboxEvent(SCRAPE_REQUESTED, 2, RequestEnvelope(SCHEMA_V1, 4, SCRAPE_REQUESTED, REQUEST), 0, None, false, false)
  const SCRAPE_KEY := JobKey(2, 1, Scrape)
  const READ := Job(SCRAPE_KEY, Queued, 0)
  const NO_VERSION := Version("", "", "", "")
  const BATCH := [ClaimedEvent(4, EVENT)]

  /** Account 1 has the page 2, with job 3 and event 4; what later identifiers name does not exist. */
  ghost predicate Created(s: System) {
    && s.db.accounts == map[1 := ACCOUNT] && s.db.documents == map[2 := PAGE]
    && s.db.versions == map[VersionKey(2, 1) := NO_VERSION]
    && s.db.jobs == map[3 := READ] && s.db.jobIndex == map[SCRAPE_KEY := 3]
    && s.db.inbox == map[] && s.db.cleanup == map[] && s.consumer.Waiting? && s.cleaner == Cleaner([], Unlisted)
    && s.requests == map[4 := REQUEST] && s.eventOf == map[3 := 4] && s.applied == multiset{} && s.used == {0, 1, 2, 3, 4} && s.files.uploads == map[]
  }

  /** Dispatcher 5 has sent the event, and not marked it yet. */
  ghost predicate Sent(s: System) {
    && Created(s.(used := s.used - {5})) && s.used == {0, 1, 2, 3, 4, 5} && s.sent == {4}
    && s.db.outbox == map[4 := EVENT.(lock := Some(5))] && s.dispatchers == map[5 := Dispatcher(BATCH, Delivered)]
  }

  lemma AccountNext()
    ensures ApiNext(INITIAL, NewAccount(1), DoNewAccount(INITIAL, 1))
  {
  }

  /** The rows of the page. */
  lemma PageBegun(db: Db)
    requires db == EMPTY_DB.(accounts := map[1 := ACCOUNT])
    ensures CreateWebpage(db, 1, 2, 3, 4, "u") == Some(NewVersion(2, PAGE, NO_VERSION, 3, 4))
    ensures BeginVersion(db, NewVersion(2, PAGE, NO_VERSION, 3, 4)) ==
            Some(db.(documents := map[2 := PAGE], versions := map[VersionKey(2, 1) := NO_VERSION],
                     jobs := map[3 := READ], jobIndex := map[SCRAPE_KEY := 3], outbox := map[4 := EVENT]))
  {
  }

  lemma PageNext()
    ensures var s := DoNewAccount(INITIAL, 1);
            var t := DoBegin(s, CreateWebpage(s.db, 1, 2, 3, 4, "u"));
            && ApiNext(s, NewWebpage(1, 2, 3, 4, "u"), t)
            && Created(t) && t.db.outbox == map[4 := EVENT] && t.dispatchers == map[] && t.sent == {}
  {
    var s := DoNewAccount(INITIAL, 1);
    PageBegun(s.db);
  }

  lemma PageCreated() returns (states: seq<System>, steps: seq<Step>)
    ensures IsRun(states, steps)
    ensures var t := states[|steps|]; Created(t) && t.db.outbox == map[4 := EVENT] && t.dispatchers == map[] && t.sent == {}
  {
    var s := DoNewAccount(INITIAL, 1);
    AccountNext();
    PageNext();
    states, steps := Then([INITIAL], [], Api(NewAccount(1)), s);
    states, steps := Then(states, steps, Api(NewWebpage(1, 2, 3, 4, "u")), DoBegin(s, CreateWebpage(s.db, 1, 2, 3, 4, "u")));
  }

  /** Dispatcher 5 has claimed the event. */
  function Leased(s: System): System {
    s.(db := s.db.(outbox := map[4 := EVENT.(lock := Some(5))]), dispatchers := map[5 := Dispatcher(BATCH, Unsent)])
  }

  lemma LeaseNext(s: System)
    requires s.db.outbox == map[4 := EVENT] && s.dispatchers == map[5 := Dispatcher([], Unsent)]
    ensures DispatchNext(s, 5, Lease([4]), Leased(s))
  {
    LeaseOne(s, 5, 4);
    assert s.dispatchers[5 := Dispatcher(BATCH, Unsent)] == map[5 := Dispatcher(BATCH, Unsent)];
  }

  lemma StartNext(s: System)
    requires Created(s) && s.db.outbox == map[4 := EVENT] && s.dispatchers == map[] && s.sent == {}
    ensures var t := DoStart(s, 5);
            && DispatchNext(s, 5, Start, t) && Created(t.(used := t.used - {5})) && t.used == {0, 1, 2, 3, 4, 5}
            && t.db == s.db && t.dispatchers == map[5 := Dispatcher([], Unsent)] && t.sent == {}
  {
    assert DoStart(s, 5).used - {5} == {0, 1, 2, 3, 4};
  }

  lemma SendNext(s: System)
    requires s.dispatchers == map[5 := Dispatcher(BATCH, Unsent)] && s.sent == {}
    ensures var t := s.(sent := {4}, dispatchers := map[5 := Dispatcher(BATCH, Delivered)]);
            DispatchNext(s, 5, Send(true, true), t)
  {
  }

  lemma PageSent() returns (states: seq<System>, steps: seq<Step>)
    ensures IsRun(states, steps) && Sent(states[|steps|])
  {
    states, steps := PageCreated();
    var s := states[|steps|];
    StartNext(s);
    states, steps := Then(states, steps, Dispatch(5, Start), DoStart(s, 5));
    LeaseNext(DoStart(s, 5));
    var t := Leased(DoStart(s, 5));
    states, steps := Then(states, steps, Dispatch(5, Lease([4])), t);
    SendNext(t);
    states, steps := Then(states, steps, Dispatch(5, Send(true, true)),
                          t.(sent := {4}, dispatchers := map[5 := Dispatcher(BATCH, Delivered)]));
  }

  // ----- its scraper answers -----

  const RESULT := ScrapeResult(SCHEMA_V1, 4, SCRAPE_COMPLETED, 3, 2, 1, "text", "raw", "", 1)
  const REFUSAL := ScrapeResult(SCHEMA_V1, 4, SCRAPE_FAILED, 3, 2, 1, "", "", "", 0)

  lemma AnswerNext(s: System, m: ScrapeResult)
    requires Sent(s) && m in {RESULT, REFUSAL}
    ensures Next(s, Scraper(m), DoScrape(s, m)) && Sent(DoScrape(s, m)) && Readable(DoScrape(s, m), m)
  {
    assert StoredAgain(s.db, m) == {};
  }

  lemma PageAnswered(m: ScrapeResult) returns (states: seq<System>, steps: seq<Step>)
    requires m in {RESULT, REFUSAL}
    ensures IsRun(states, steps) && Sent(states[|steps|]) && Readable(states[|steps|], m)
  {
    states, steps := PageSent();
    var s := states[|steps|];
    AnswerNext(s, m);
    states, steps := Then(states, steps, Scraper(m), DoScrape(s, m));
  }

  // ----- and it is refreshed while its result is being read -----

  /** A result in hand was read as old, names an object, and its document is still live. */
  ghost predicate Racing(s: System, job: Uuid) {
    && s.consumer.HasDocument? && !CleanerBusy(s) && Fresh(s, [job])
    && var m, found := s.consumer.m, s.consumer.found;
       && m.version > 0 && m.eventType == SCRAPE_COMPLETED && m.content != "" && m.eventId !in s.db.inbox
       && s.consumer.job.state !in {Succeeded, Failed}
       && found.Some? && found.value.currentVersion != m.version
       && s.db.Live(m.document) && m.document !in s.db.cleanup
       && VersionKey(m.document, m.version) in s.db.versions
       && KeysOf(ResultVersion(m)) != {}
  }

  const PAGE2 := PAGE.(currentVersion := 2)

  const REFRESH := NewVersion(2, PAGE2, NO_VERSION, 6, 7)

  lemma RefreshPlanned(db: Db)
    requires db.documents == map[2 := PAGE]
    ensures UpdateWebpage(db, 1, 2, 6, 7, "u") == Some(REFRESH)
  {
  }

  /** What the refresh leaves as it needs to be. */
  ghost predicate RefreshedTables(db: Db, after: Db) {
    && 2 in after.documents && after.documents[2] == PAGE2 && VersionKey(2, 1) in after.versions
    && 3 in after.jobs && after.jobs[3] == READ && after.inbox == db.inbox && after.cleanup == db.cleanup
  }

  lemma RefreshBegun(db: Db)
    requires db.versions == map[VersionKey(2, 1) := NO_VERSION] && db.jobs == map[3 := READ]
    requires db.jobIndex == map[SCRAPE_KEY := 3] && db.outbox == map[4 := EVENT.(lock := Some(5))]
    ensures BeginVersion(db, REFRESH).Some? && RefreshedTables(db, BeginVersion(db, REFRESH).value)
  {
  }

  lemma RefreshNext(s: System)
    requires s.used == {0, 1, 2, 3, 4, 5} && s.files.uploads == map[]
    ensures ApiNext(s, RefreshWebpage(1, 2, 6, 7, "u"), DoBegin(s, UpdateWebpage(s.db, 1, 2, 6, 7, "u")))
  {
  }

  lemma RefreshedState(s: System)
    requires Sent(s) && Readable(s, RESULT)
    ensures var t := DoBegin(s, UpdateWebpage(s.db, 1, 2, 6, 7, "u"));
            && RefreshedTables(s.db, t.db) && t.used == s.used + {2, 6, 7}
            && t.consumer == s.consumer && t.cleaner == s.cleaner && t.results == s.results && t.files == s.files
  {
    RefreshPlanned(s.db);
    RefreshBegun(s.db);
  }

  lemma RacingAfter(s: System, t: System)
    requires Readable(s, RESULT) && RefreshedTables(s.db, t.db) && t.consumer == s.consumer && t.results == s.results
    requires t.cleaner == Cleaner([], Unlisted) && s.db.inbox == map[] && s.db.cleanup == map[]
    requires t.used == {0, 1, 2, 3, 4, 5, 6, 7} && t.files.uploads == map[]
    ensures Readable(t, RESULT) && Racing(Read(t, RESULT), 8)
  {
    assert "raw" in KeysOf(ResultVersion(RESULT));
  }

  lemma Refreshed() returns (states: seq<System>, steps: seq<Step>)
    ensures IsRun(states, steps) && Racing(states[|steps|], 8)
  {
    states, steps := PageAnswered(RESULT);
    var s := states[|steps|];
    RefreshNext(s);
    RefreshedState(s);
    var t := DoBegin(s, UpdateWebpage(s.db, 1, 2, 6, 7, "u"));
    RacingAfter(s, t);
    states, steps := Then(states, steps, Api(RefreshWebpage(1, 2, 6, 7, "u")), t);
    states, steps := ThenRead(states, steps, RESULT);
  }

  // ----- or scraped -----

  /** A live page names the object, and its scraper may answer its request once more. */
  ghost predicate Answerable(s: System, d: Uuid, o: S3Object, m: ScrapeResult) {
    && !CleanerBusy(s) && s.db.Live(d) && d !in s.db.cleanup && s.db.documents[d].kind == Webpage
    && o in ObjectsOf(s.db.documents, s.db.versions, d) && o.key in {m.rawKey, m.contentKey}
    && Answers(s, m)
  }

  const RAW := S3Object(ArtifactBucket, "raw")

  lemma ScrapedRows(db: Db, m: ScrapeResult, job: Job, found: Document, enrichJob: Uuid)
    requires m.version > 0 && Judge(db, m, job, Some(found), enrichJob) == AppliedSuccess
    requires ReadAsCurrent(m, Some(found)) && m.rawKey != ""
    ensures var t := ApplyResult(db, m, job, Some(found), enrichJob);
            && t.Live(m.document) && t.documents[m.document].kind == db.documents[m.document].kind && t.cleanup == db.cleanup
            && VersionKey(m.document, m.version) in t.versions
            && m.rawKey in KeysOf(t.versions[VersionKey(m.document, m.version)])
  {
  }

  lemma ResultIsApplied(db: Db)
    requires db.documents == map[2 := PAGE] && db.versions == map[VersionKey(2, 1) := NO_VERSION]
    requires db.jobs == map[3 := READ] && db.jobIndex == map[SCRAPE_KEY := 3] && db.inbox == map[]
    ensures Judge(db, RESULT, READ, Some(PAGE), 8) == AppliedSuccess
  {
    DifferentTypes();
  }

  lemma RowNames(db: Db, k: VersionKey, key: string)
    requires k in db.versions && k.document in db.documents && key in KeysOf(db.versions[k])
    ensures S3Object(BucketOf(db.documents[k.document].kind), key) in ObjectsOf(db.documents, db.versions, k.document)
  {
  }

  lemma ScrapedAt(s: System)
    requires Sent(s) && Readable(s, RESULT)
    ensures Fresh(Read(s, RESULT), [8]) && Answerable(DoCommit(Read(s, RESULT), 8), 2, RAW, RESULT)
  {
    ResultIsApplied(s.db);
    ScrapedRows(s.db, RESULT, READ, PAGE, 8);
    var db := ApplyResult(s.db, RESULT, READ, Some(PAGE), 8);
    RowNames(db, VersionKey(2, 1), "raw");
    assert DoCommit(Read(s, RESULT), 8).db == db;
    assert RESULT.eventId in s.sent && s.requests[RESULT.eventId].job == RESULT.job;
  }

  lemma Scraped() returns (states: seq<System>, steps: seq<Step>)
    ensures IsRun(states, steps) && Answerable(states[|steps|], 2, RAW, RESULT)
  {
    states, steps := PageAnswered(RESULT);
    ScrapedAt(states[|steps|]);
    states, steps := ThenRead(states, steps, RESULT);
    CommitNext(states[|steps|], 8);
    states, steps := Then(states, steps, Consume(Commit(8)), DoCommit(states[|steps|], 8));
  }

  // ----- or marked as published after its failed result -----

  const MARKED := Job(SCRAPE_KEY, Processing, 1)

  /** The failed result is in, and the document is shown as being scraped. */
  ghost predicate Stranded(s: System, inbox: map<Uuid, bool>, used: set<Uuid>, times: nat) {
    && s.db.documents == map[2 := PAGE.(status := ScrapeProcessing)] && s.db.jobs == map[3 := MARKED]
    && s.db.jobIndex == map[SCRAPE_KEY := 3] && s.eventOf == map[3 := 4] && s.db.inbox == inbox
    && s.applied[3] == times && s.used == used && s.files.uploads == map[] && s.consumer.Waiting? && REFUSAL in s.results
  }

  lemma RefusedAt(s: System)
    requires Sent(s) && Readable(s, REFUSAL)
    ensures var t := DoCommit(Read(s, REFUSAL), 8);
            && Fresh(Read(s, REFUSAL), [8])
            && t.db.documents == map[2 := PAGE.(status := ScrapeRejected)]
            && t.db.jobs == map[3 := READ.(state := Failed)] && t.db.inbox == map[4 := true]
            && t.db.jobIndex == s.db.jobIndex && t.db.outbox == s.db.outbox && t.dispatchers == s.dispatchers
            && t.eventOf == s.eventOf && t.applied == multiset{3} && t.used == s.used + {8} && t.files == s.files
            && t.consumer.Waiting? && t.results == s.results
  {
    DifferentTypes();
    var t := Read(s, REFUSAL);
    assert Judge(t.db, REFUSAL, READ, Some(PAGE), 8) == AppliedFailure;
    assert ApplyResult(t.db, REFUSAL, READ, Some(PAGE), 8).jobs == map[3 := READ.(state := Failed)];
  }

  lemma MarkNext(s: System)
    requires s.db.documents == map[2 := PAGE.(status := ScrapeRejected)] && s.db.jobs == map[3 := READ.(state := Failed)]
    requires s.db.outbox == map[4 := EVENT.(lock := Some(5))] && s.dispatchers == map[5 := Dispatcher(BATCH, Delivered)]
    ensures var t := DoPublish(s, 5);
            && DispatchNext(s, 5, Publish, t)
            && t.db.documents == map[2 := PAGE.(status := ScrapeProcessing)] && t.db.jobs == map[3 := MARKED]
            && t == s.(db := s.db.(documents := t.db.documents, jobs := t.db.jobs, outbox := t.db.outbox), dispatchers := t.dispatchers)
  {
    MarkedTables(s.db);
    assert BATCH[1..] == [];
  }

  lemma MarkedTables(db: Db)
    requires db.documents == map[2 := PAGE.(status := ScrapeRejected)] && db.jobs == map[3 := READ.(state := Failed)]
    requires db.outbox == map[4 := EVENT.(lock := Some(5))]
    ensures MarkPublished(db, 4, 5, REQUEST).Some?
    ensures var t := MarkPublished(db, 4, 5, REQUEST).value;
            && t.documents == map[2 := PAGE.(status := ScrapeProcessing)] && t.jobs == map[3 := MARKED]
            && t == db.(documents := t.documents, jobs := t.jobs, outbox := t.outbox)
  {
  }

  lemma Marked() returns (states: seq<System>, steps: seq<Step>)
    ensures IsRun(states, steps) && Stranded(states[|steps|], map[4 := true], {0, 1, 2, 3, 4, 5, 8}, 1)
  {
    states, steps := PageAnswered(REFUSAL);
    RefusedAt(states[|steps|]);
    states, steps := ThenRead(states, steps, REFUSAL);
    CommitNext(states[|steps|], 8);
    states, steps := Then(states, steps, Consume(Commit(8)), DoCommit(states[|steps|], 8));
    MarkNext(states[|steps|]);
    states, steps := Then(states, steps, Dispatch(5, Publish), DoPublish(states[|steps|], 5));
  }

  /** Once the inbox row is gone, the same message can be read and applied again. */
  lemma ForgottenAt(s: System)
    requires Stranded(s, map[], {0, 1, 2, 3, 4, 5, 8}, 1)
    ensures Readable(s, REFUSAL) && Fresh(Read(s, REFUSAL), [9]) && DoCommit(Read(s, REFUSAL), 9).applied[3] == 2
  {
    DifferentTypes();
    var t := Read(s, REFUSAL);
    assert Judge(t.db, REFUSAL, MARKED, Some(PAGE.(status := ScrapeProcessing)), 9) == AppliedFailure;
  }

  // ----- a memo is created and about to be enriched -----

  /** The transaction that completes a document is ready to commit. */
  ghost predicate Committing(s: System, extracted: string, summary: string) {
    && EnricherBusy(s) && s.enricher.stage.HasBoth?
    && CommitEnrichment(s.db, Protocol.Current(s), s.enricher.stage.version, s.enricher.stage.document,
                        extracted, summary).Some?
  }

  const MEMO := Document(1, Memo, "", "x", "", EnrichPending, 1, 0, false)
  const MEMO_VERSION := Version("", "", "x", "")
  const ENRICH_KEY := JobKey(2, 1, Enrich)
  const TAKEN := ClaimedJob(3, 2, 1)

  lemma MemoNext()
    ensures var s := DoNewAccount(INITIAL, 1);
            var t := DoBegin(s, CreateMemo(s.db, 1, 2, 3, "x"));
            && ApiNext(s, NewMemo(1, 2, 3, "x"), t)
            && t.db.documents == map[2 := MEMO] && t.db.versions == map[VersionKey(2, 1) := MEMO_VERSION]
            && t.db.jobs == map[3 := Job(ENRICH_KEY, Queued, 0)] && t.enricher == Enricher([], Fetched)
  {
    var s := DoNewAccount(INITIAL, 1);
    assert Text.Trim("x") == "x";
    assert CreateMemo(s.db, 1, 2, 3, "x") == Some(NewVersion(2, MEMO, MEMO_VERSION, 3, NIL));
  }

  lemma TakeNext(s: System)
    requires s.db.jobs == map[3 := Job(ENRICH_KEY, Queued, 0)] && s.enricher == Enricher([], Fetched)
    ensures var t := DoTakeJobs(s, [3]);
            && EnrichNext(s, TakeJobs([3]), t) && t.enricher == Enricher([TAKEN], Fetched)
            && t.db == s.db.(jobs := t.db.jobs) && t.db.jobs == map[3 := Job(ENRICH_KEY, Processing, 1)]
  {
    TakenJobs(s.db.jobs);
  }

  lemma TakenJobs(jobs: map<Uuid, Job>)
    requires jobs == map[3 := Job(ENRICH_KEY, Queued, 0)]
    ensures ClaimJobs(jobs, Elements([3])) == map[3 := Job(ENRICH_KEY, Processing, 1)] && ClaimedJobs(jobs, [3]) == [TAKEN]
  {
    assert Elements([3]) == {3} by {
      assert [3][0] == 3;
    }
  }

  lemma ReadBothNext(s: System)
    requires s.db.documents == map[2 := MEMO] && s.db.versions == map[VersionKey(2, 1) := MEMO_VERSION]
    requires s.db.jobs == map[3 := Job(ENRICH_KEY, Processing, 1)] && s.enricher == Enricher([TAKEN], Fetched)
    ensures var t := DoReadVersion(s);
            && EnrichNext(s, ReadVersion, t) && EnrichNext(t, ReadCurrent, DoReadCurrent(t))
            && Committing(DoReadCurrent(t), "", "s") && Protocol.Current(DoReadCurrent(t)).document == 2
  {
    assert Text.Trim("x") == "x";
  }

  lemma AboutToCommit() returns (states: seq<System>, steps: seq<Step>)
    ensures IsRun(states, steps) && Committing(states[|steps|], "", "s") && Protocol.Current(states[|steps|]).document == 2
  {
    var s := DoNewAccount(INITIAL, 1);
    AccountNext();
    MemoNext();
    states, steps := Then([INITIAL], [], Api(NewAccount(1)), s);
    var t := DoBegin(s, CreateMemo(s.db, 1, 2, 3, "x"));
    states, steps := Then(states, steps, Api(NewMemo(1, 2, 3, "x")), t);
    TakeNext(t);
    t := DoTakeJobs(t, [3]);
    states, steps := Then(states, steps, Enriching(TakeJobs([3])), t);
    ReadBothNext(t);
    states, steps := Then(states, steps, Enriching(ReadVersion), DoReadVersion(t));
    states, steps := Then(states, steps, Enriching(ReadCurrent), DoReadCurrent(DoReadVersion(t)));
  }

  // ----- a file is uploaded, nobody is answered, and its object is deleted again -----

  const UPLOAD := Upload(2, 3, "k", 1, "x", File)

  /** The document is live and names the object, which is gone. */
  ghost predicate Gone(s: System) {
    && s.db.Live(2) && s.db.documents[2].kind == File && VersionKey(2, 1) in s.db.versions
    && s.db.versions[VersionKey(2, 1)].rawKey == "k" && "k" in s.files.deleted
  }

  lemma PutNext()
    ensures ApiNext(DoNewAccount(INITIAL, 1), PutFile(2, "k"), DoPutFile(DoNewAccount(INITIAL, 1), 2, "k"))
  {
  }

  /** The rows of the upload. */
  lemma UploadBegun(db: Db)
    requires db.accounts == map[1 := ACCOUNT] && db.documents == map[] && db.versions == map[]
    requires db.jobs == map[] && db.jobIndex == map[]
    ensures PersistFile(db, 1, UPLOAD).Some? && BeginVersion(db, PersistFile(db, 1, UPLOAD).value).Some?
    ensures var t := BeginVersion(db, PersistFile(db, 1, UPLOAD).value).value;
            && t.Live(2) && t.documents[2].kind == File
            && VersionKey(2, 1) in t.versions && t.versions[VersionKey(2, 1)].rawKey == "k"
  {
  }

  lemma UploadNext()
    ensures var s := DoPutFile(DoNewAccount(INITIAL, 1), 2, "k");
            var t := DoNewFile(s, 1, UPLOAD, false);
            && ApiNext(s, NewFile(1, UPLOAD, false), t) && 2 !in s.used && 2 in t.used
            && 2 in t.files.uploads && t.files.uploads[2].failed && Gone(DoCompensate(t, 2, true))
  {
    var s := DoPutFile(DoNewAccount(INITIAL, 1), 2, "k");
    UploadBegun(s.db);
  }

  lemma CompensateNext(s: System, d: Uuid)
    requires d in s.files.uploads && s.files.uploads[d].failed
    ensures ApiNext(s, Compensate(d, true), DoCompensate(s, d, true))
  {
  }

  lemma Committed() returns (states: seq<System>, steps: seq<Step>)
    ensures IsRun(states, steps) && |steps| == 3 && steps[2] == Api(NewFile(1, UPLOAD, false))
    ensures 2 in states[3].files.uploads && states[3].files.uploads[2].failed
    ensures 2 !in states[2].used && 2 in states[3].used && Gone(DoCompensate(states[3], 2, true))
  {
    var s := DoNewAccount(INITIAL, 1);
    AccountNext();
    PutNext();
    UploadNext();
    states, steps := Then([INITIAL], [], Api(NewAccount(1)), s);
    s := DoPutFile(s, 2, "k");
    states, steps := Then(states, steps, Api(PutFile(2, "k")), s);
    s := DoNewFile(s, 1, UPLOAD, false);
    states, steps := Then(states, steps, Api(NewFile(1, UPLOAD, false)), s);
  }

  lemma Uploaded() returns (states: seq<System>, steps: seq<Step>)
    ensures IsRun(states, steps) && |steps| == 4 && Gone(states[4])
    ensures steps[2] == Api(NewFile(1, UPLOAD, false)) && steps[3] == Api(Compensate(2, true))
    ensures 2 !in states[2].used && 2 in states[3].used
  {
    states, steps := Committed();
    CompensateNext(states[3], 2);
    states, steps := Then(states, steps, Api(Compensate(2, true)), DoCompensate(states[3], 2, true));
  }
}
