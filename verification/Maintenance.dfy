/** The maintenance job deletes old inbox, outbox and job rows (internal/worker/maintenance.go). As long as
    no result arrives whose inbox row it has deleted, the system behaves as if it had deleted nothing:
    every run with it is a run of the protocol, seen without the deleted rows. */
module Maintenance {
  import opened Schema
  import opened Transactions
  import opened Protocol
  import opened Invariants
  import opened Runs
  import opened Progress
  import ProofsApi
  import ProofsConsume

  /** Rows that have been deleted, by their identifiers. */
  datatype Gone = Gone(inbox: set<Uuid>, outbox: set<Uuid>, jobs: set<Uuid>)

  const NOTHING := Gone({}, {}, {})

  function Union(a: Gone, b: Gone): Gone { Gone(a.inbox + b.inbox, a.outbox + b.outbox, a.jobs + b.jobs) }

  predicate Ended(row: OutboxEvent) { row.published || row.deadLettered }

  /** The guards of the three statements, age aside. */
  ghost predicate Forgettable(db: Db, gone: Gone) {
    && (forall e :: e in gone.inbox ==> e in db.inbox && db.inbox[e])
    && (forall e :: e in gone.outbox ==> e in db.outbox && Ended(db.outbox[e]))
    && (forall j :: j in gone.jobs ==> j in db.jobs && db.jobs[j].state in {Succeeded, Cancelled})
  }

  function Pruned(db: Db, gone: Gone): Db {
    db.(inbox := db.inbox - gone.inbox,
        outbox := db.outbox - gone.outbox,
        jobs := db.jobs - gone.jobs,
        jobIndex := IndexWithout(db.jobIndex, gone.jobs))
  }

  /** A row leaves the unique index with the table. */
  function IndexWithout(jobIndex: map<JobKey, Uuid>, gone: set<Uuid>): map<JobKey, Uuid> {
    map k | k in jobIndex && jobIndex[k] !in gone :: jobIndex[k]
  }

  lemma PutPruned<K, V>(rows: map<K, V>, gone: set<K>, k: K, row: V)
    requires k !in gone
    ensures (rows - gone)[k := row] == rows[k := row] - gone
  {
  }

  lemma PutIndexPruned(jobIndex: map<JobKey, Uuid>, gone: set<Uuid>, k: JobKey, j: Uuid)
    requires j !in gone
    ensures IndexWithout(jobIndex, gone)[k := j] == IndexWithout(jobIndex[k := j], gone)
  {
  }

  lemma InsertPruned(db: Db, j: Uuid, k: JobKey, gone: Gone)
    requires k !in db.jobIndex && j !in gone.jobs
    ensures InsertJob(Pruned(db, gone), j, k) == Pruned(InsertJob(db, j, k), gone)
  {
    PutPruned(db.jobs, gone.jobs, j, Job(k, Queued, 0));
    PutIndexPruned(db.jobIndex, gone.jobs, k, j);
  }

  /** The system without the deleted rows. */
  function Seen(s: System, gone: Gone): System { s.(db := Pruned(s.db, gone)) }

  // ----- runs with maintenance -----

  datatype Move = Take(step: Step) | Forget(gone: Gone)

  ghost predicate MoveNext(u: System, move: Move, v: System) {
    match move
    case Take(step) => Next(u, step, v)
    case Forget(gone) => Forgettable(u.db, gone) && v == Seen(u, gone)
  }

  /** Processed inbox rows, events that are published or dead-lettered and jobs that have succeeded or were
      cancelled may go, and nothing else goes with them; a job takes its place in the unique index along. */
  lemma RowsAreForgotten(u: System, gone: Gone, v: System)
    ensures MoveNext(u, Forget(gone), v) <==>
            && (forall e :: e in gone.inbox ==> e in u.db.inbox && u.db.inbox[e])
            && (forall e :: e in gone.outbox ==> e in u.db.outbox && (u.db.outbox[e].published || u.db.outbox[e].deadLettered))
            && (forall j :: j in gone.jobs ==>
                  j in u.db.jobs && (u.db.jobs[j].state == Succeeded || u.db.jobs[j].state == Cancelled))
            && v == u.(db := u.db.(inbox := u.db.inbox - gone.inbox, outbox := u.db.outbox - gone.outbox,
                                   jobs := u.db.jobs - gone.jobs,
                                   jobIndex := map k | k in u.db.jobIndex && u.db.jobIndex[k] !in gone.jobs :: u.db.jobIndex[k]))
  {
  }

  ghost predicate IsMaintainedRun(us: seq<System>, moves: seq<Move>) {
    && |us| == |moves| + 1
    && us[0] == INITIAL
    && forall i {:trigger MoveNext(us[i], moves[i], us[i + 1])} :: 0 <= i < |moves| ==> MoveNext(us[i], moves[i], us[i + 1])
  }

  /** All that the first n moves have deleted. */
  function GoneBefore(moves: seq<Move>, n: nat): Gone
    requires n <= |moves|
  {
    if n == 0 then NOTHING
    else
      var before := GoneBefore(moves, n - 1);
      if moves[n - 1].Forget? then Union(before, moves[n - 1].gone) else before
  }

  /** The transaction of a result whose inbox row has been deleted. */
  predicate Late(u: System, step: Step, gone: Gone) {
    step.Consume? && step.consume.Commit? && u.consumer.HasDocument? && u.consumer.m.eventId in gone.inbox
  }

  /** Inbox rows are kept until no result of their event is on its way. */
  ghost predicate Retained(us: seq<System>, moves: seq<Move>, n: nat)
    requires n <= |moves| < |us|
  {
    forall i: nat :: i < n && moves[i].Take? ==> !Late(us[i], moves[i].step, GoneBefore(moves, i))
  }

  // ----- rows that no statement would have used -----

  /** Deleted rows have been final and are not missed. */
  ghost predicate Final(s: System, gone: Gone) {
    && gone.inbox <= s.db.inbox.Keys
    && (forall e :: e in gone.outbox ==> e in s.db.outbox && Ended(s.db.outbox[e]))
    && gone.jobs <= s.used
    && (forall j :: j in gone.jobs && j in s.db.jobs ==> s.db.jobs[j].state == Succeeded)
  }

  lemma FinalNext(s: System, t: System, gone: Gone)
    requires Final(s, gone) && Moves(s, t)
    ensures Final(t, gone)
  {
  }

  lemma FinalForget(s: System, gone: Gone, more: Gone)
    requires Final(s, gone) && Forgettable(Pruned(s.db, gone), more) && s.db.jobs.Keys <= s.used
    requires forall j :: j in s.db.jobs ==> s.db.jobs[j].state != Cancelled
    ensures Final(s, Union(gone, more)) && Seen(Seen(s, gone), more) == Seen(s, Union(gone, more))
  {
    var db, both := s.db, Union(gone, more);
    assert db.inbox - gone.inbox - more.inbox == db.inbox - both.inbox;
    assert db.outbox - gone.outbox - more.outbox == db.outbox - both.outbox;
    assert db.jobs - gone.jobs - more.jobs == db.jobs - both.jobs;
    assert IndexWithout(IndexWithout(db.jobIndex, gone.jobs), more.jobs) == IndexWithout(db.jobIndex, both.jobs);
  }

  // ----- API -----

  lemma BeginPruned(db: Db, n: NewVersion, gone: Gone)
    requires n.Index() !in db.jobIndex && n.job !in db.jobs && n.job !in gone.jobs
    requires n.Kind() == Scrape ==> n.event !in db.outbox && n.event !in gone.outbox
    ensures BeginVersion(Pruned(db, gone), n).Some? <==> BeginVersion(db, n).Some?
    ensures BeginVersion(db, n).Some? ==> BeginVersion(Pruned(db, gone), n).value == Pruned(BeginVersion(db, n).value, gone)
  {
    var outbox := if n.Kind() == Scrape then db.outbox[n.event := n.Event()] else db.outbox;
    var begun := db.(documents := db.documents[n.d := n.document], versions := db.versions[n.Key() := n.version],
                     outbox := outbox);
    if n.Kind() == Scrape {
      PutPruned(db.outbox, gone.outbox, n.event, n.Event());
    }
    InsertPruned(begun, n.job, n.Index(), gone);
  }

  lemma PlanPruned(s: System, plan: Option<NewVersion>, gone: Gone)
    requires RowsOk(s) && Final(s, gone) && (plan.Some? ==> ProofsApi.CanBegin(s, plan.value))
    ensures DoBegin(Seen(s, gone), plan) == Seen(DoBegin(s, plan), gone)
    ensures plan.Some? ==> (BeginVersion(Pruned(s.db, gone), plan.value).Some? <==> BeginVersion(s.db, plan.value).Some?)
  {
    if plan.Some? {
      ProofsApi.BeginUnmet(s, plan.value);
      BeginPruned(s.db, plan.value, gone);
    }
  }

  lemma DeletePruned(s: System, owner: Uuid, d: Uuid, gone: Gone)
    ensures DoRemove(Seen(s, gone), owner, d) == Seen(DoRemove(s, owner, d), gone)
    ensures DoLeave(Seen(s, gone), owner) == Seen(DoLeave(s, owner), gone)
  {
  }

  lemma FreshPruned(s: System, ids: seq<Uuid>, gone: Gone)
    ensures Fresh(Seen(s, gone), ids) <==> Fresh(s, ids)
  {
  }

  /** What a request makes of the system, if it creates a version. */
  function Requested(s: System, step: ApiStep): System {
    if step.NewFile? && step.file.document in s.files.uploads then DoNewFile(s, step.owner, step.file, step.answered)
    else DoBegin(s, ProofsApi.PlanOf(s.db, step))
  }

  /** Its guards do not depend on the deleted rows. */
  lemma RequestSeen(s: System, step: ApiStep, u: System, gone: Gone)
    requires ProofsApi.Begins(step) && ApiNext(Seen(s, gone), step, u)
    ensures ApiNext(s, step, Requested(s, step)) && u == Requested(Seen(s, gone), step)
  {
    PlanIsSeen(s, step, gone);
  }

  lemma RequestPruned(s: System, step: ApiStep, gone: Gone)
    requires ProofsApi.PlanOf(s.db, step).Some? ==>
               (BeginVersion(Pruned(s.db, gone), ProofsApi.PlanOf(s.db, step).value).Some? <==>
                BeginVersion(s.db, ProofsApi.PlanOf(s.db, step).value).Some?)
    requires DoBegin(Seen(s, gone), ProofsApi.PlanOf(s.db, step)) == Seen(DoBegin(s, ProofsApi.PlanOf(s.db, step)), gone)
    ensures Requested(Seen(s, gone), step) == Seen(Requested(s, step), gone)
  {
    PlanIsSeen(s, step, gone);
  }

  lemma PlanIsSeen(s: System, step: ApiStep, gone: Gone)
    ensures ProofsApi.PlanOf(Seen(s, gone).db, step) == ProofsApi.PlanOf(s.db, step)
  {
  }

  lemma ApiPruned(s: System, step: ApiStep, u: System, gone: Gone) returns (t: System)
    requires RowsOk(s) && Final(s, gone) && ApiNext(Seen(s, gone), step, u)
    ensures ApiNext(s, step, t) && u == Seen(t, gone)
  {
    if ProofsApi.Begins(step) {
      t := Requested(s, step);
      RequestSeen(s, step, u, gone);
      ProofsApi.PlanNext(s, step, t);
      PlanPruned(s, ProofsApi.PlanOf(s.db, step), gone);
      RequestPruned(s, step, gone);
    } else {
      t := OtherApiPruned(s, step, u, gone);
    }
  }

  lemma OtherApiPruned(s: System, step: ApiStep, u: System, gone: Gone) returns (t: System)
    requires !ProofsApi.Begins(step) && ApiNext(Seen(s, gone), step, u)
    ensures ApiNext(s, step, t) && u == Seen(t, gone)
  {
    match step
    case NewAccount(a) =>
      FreshPruned(s, [a], gone);
      t := DoNewAccount(s, a);
    case PutFile(d, key) =>
      FreshPruned(s, [d], gone);
      t := DoPutFile(s, d, key);
    case FailUpload(d, sent) => t := DoFailUpload(s, d, sent);
    case Compensate(d, reached) => t := DoCompensate(s, d, reached);
    case Remove(owner, d) =>
      DeletePruned(s, owner, d, gone);
      t := DoRemove(s, owner, d);
    case Leave(a) =>
      DeletePruned(s, a, NIL, gone);
      t := DoLeave(s, a);
    case _ => t := s;
  }

  // ----- dispatchers -----

  /** An event that has ended is leased to nobody, so that its row might as well be gone. */
  lemma LeasedPruned(s: System, e: Uuid, token: Uuid, gone: Gone)
    requires Final(s, gone) && OutboxSafe(s.db.outbox, s.sent)
    ensures Leased(Pruned(s.db, gone), e, token) <==> Leased(s.db, e, token)
    ensures Leased(s.db, e, token) ==> e !in gone.outbox
  {
    if e in gone.outbox {
      assert RowSafe(e, s.db.outbox[e], s.sent);
    }
  }

  lemma JobsPruned(s: System, j: Uuid, gone: Gone)
    requires Final(s, gone)
    ensures MarkJobProcessing(s.db.jobs - gone.jobs, j) == MarkJobProcessing(s.db.jobs, j) - gone.jobs
    ensures FailJob(s.db.jobs - gone.jobs, j) == FailJob(s.db.jobs, j) - gone.jobs
    ensures CompleteJob(s.db.jobs - gone.jobs, j) == CompleteJob(s.db.jobs, j) - gone.jobs
  {
  }

  lemma LeasePruned(s: System, token: Uuid, picked: seq<Uuid>, gone: Gone)
    requires CanLease(Seen(s, gone), token, picked)
    ensures CanLease(s, token, picked) && DoLease(Seen(s, gone), token, picked) == Seen(DoLease(s, token, picked), gone)
  {
    assert ClaimEvents(Pruned(s.db, gone), token, Elements(picked)).outbox
        == ClaimEvents(s.db, token, Elements(picked)).outbox - gone.outbox;
    assert ClaimedEvents(s.db.outbox - gone.outbox, picked) == ClaimedEvents(s.db.outbox, picked);
  }

  lemma PublishPruned(s: System, token: Uuid, gone: Gone)
    requires Final(s, gone) && OutboxSafe(s.db.outbox, s.sent) && Busy(s, token, Delivered)
    ensures DoPublish(Seen(s, gone), token) == Seen(DoPublish(s, token), gone)
  {
    var c := Head(s, token);
    LeasedPruned(s, c.id, token, gone);
    JobsPruned(s, c.row.payload.data.job, gone);
    if Leased(s.db, c.id, token) {
      PutPruned(s.db.outbox, gone.outbox, c.id, s.db.outbox[c.id].(published := true));
    }
  }

  lemma DeadLetterPruned(s: System, e: Uuid, token: Uuid, gone: Gone)
    requires Final(s, gone) && OutboxSafe(s.db.outbox, s.sent)
    ensures DeadLetter(Pruned(s.db, gone), e, token) == Pruned(DeadLetter(s.db, e, token), gone)
  {
    LeasedPruned(s, e, token, gone);
    if Leased(s.db, e, token) {
      var row := s.db.outbox[e];
      PutPruned(s.db.outbox, gone.outbox, e, row.(attempts := row.attempts + 1, lock := None, deadLettered := true));
    }
  }

  lemma ReschedulePruned(s: System, e: Uuid, token: Uuid, gone: Gone)
    requires Final(s, gone) && OutboxSafe(s.db.outbox, s.sent)
    ensures Reschedule(Pruned(s.db, gone), e, token) == Pruned(Reschedule(s.db, e, token), gone)
  {
    LeasedPruned(s, e, token, gone);
    if Leased(s.db, e, token) {
      var row := s.db.outbox[e];
      PutPruned(s.db.outbox, gone.outbox, e, row.(attempts := row.attempts + 1, lock := None));
    }
  }

  lemma DispatchPruned(s: System, token: Uuid, step: DispatchStep, u: System, gone: Gone) returns (t: System)
    requires Final(s, gone) && OutboxSafe(s.db.outbox, s.sent) && DispatchNext(Seen(s, gone), token, step, u)
    ensures DispatchNext(s, token, step, t) && u == Seen(t, gone)
  {
    match step
    case Start =>
      FreshPruned(s, [token], gone);
      t := DoStart(s, token);
    case Stop => t := s.(dispatchers := s.dispatchers - {token});
    case Lease(picked) =>
      LeasePruned(s, token, picked, gone);
      t := DoLease(s, token, picked);
    case Send(delivered, acknowledged) => t := DoSend(s, token, delivered, acknowledged);
    case Publish =>
      PublishPruned(s, token, gone);
      t := DoPublish(s, token);
    case GiveUp =>
      DeadLetterPruned(s, Head(s, token).id, token, gone);
      ReschedulePruned(s, Head(s, token).id, token, gone);
      t := DoGiveUp(s, token);
    case DropInvalid =>
      DeadLetterPruned(s, Head(s, token).id, token, gone);
      t := DoDropInvalid(s, token);
    case Skip(rest) => t := DoSkip(s, token, rest);
  }

  // ----- the result consumer -----

  /** The verdict does not depend on deleted rows, as long as the inbox row of the event is not among them. */
  lemma JudgePruned(s: System, job: Uuid, gone: Gone)
    requires s.consumer.HasDocument? && s.consumer.m.version > 0 && s.consumer.m.eventId !in gone.inbox
    requires job !in s.db.jobs
    requires s.consumer.m.eventId !in s.db.inbox ==>
               JobKey(s.consumer.m.document, s.consumer.m.version, Enrich) !in s.db.jobIndex
    ensures var m, read, found := s.consumer.m, s.consumer.job, s.consumer.found;
            Judge(Pruned(s.db, gone), m, read, found, job) == Judge(s.db, m, read, found, job)
  {
  }

  lemma ReceivePruned(db: Db, m: ScrapeResult, gone: Gone)
    requires m.eventId !in gone.inbox
    ensures Transactions.Receive(Pruned(db, gone), m) == Pruned(Transactions.Receive(db, m), gone)
  {
    PutPruned(db.inbox, gone.inbox, m.eventId, true);
  }

  lemma SuccessPruned(s: System, m: ScrapeResult, found: Option<Document>, job: Uuid, gone: Gone)
    requires Final(s, gone) && m.version > 0 && job !in s.db.jobs && job !in gone.jobs
    requires JobKey(m.document, m.version, Enrich) !in s.db.jobIndex
    ensures ApplySuccess(Pruned(s.db, gone), m, found, job) == Pruned(ApplySuccess(s.db, m, found, job), gone)
  {
    var db1 := s.db.(versions := s.db.versions[VersionKey(m.document, m.version) := ResultVersion(m)]);
    var db2 := if ReadAsCurrent(m, found) then StartEnrichment(db1, m, job) else db1;
    var db3 := if found.None? then Requeue(db2, m.document) else db2;
    StartPruned(db1, m, job, gone);
    RequeuePruned(db2, m.document, gone);
    CompletedPruned(db3.jobs, m.job, gone);
  }

  lemma StartPruned(db: Db, m: ScrapeResult, job: Uuid, gone: Gone)
    requires m.version > 0 && job !in gone.jobs && JobKey(m.document, m.version, Enrich) !in db.jobIndex
    ensures StartEnrichment(Pruned(db, gone), m, job) == Pruned(StartEnrichment(db, m, job), gone)
  {
    if m.document in db.documents && m.fileSize >= 0 {
      InsertPruned(db.(documents := db.documents[m.document := ScrapedDocument(db.documents[m.document], m)]),
                   job, JobKey(m.document, m.version, Enrich), gone);
    }
  }

  lemma RequeuePruned(db: Db, d: Uuid, gone: Gone)
    ensures Requeue(Pruned(db, gone), d) == Pruned(Requeue(db, d), gone)
  {
  }

  /** Completing a job that has succeeded, and been deleted, changes nothing. */
  lemma CompletedPruned(jobs: map<Uuid, Job>, j: Uuid, gone: Gone)
    ensures CompleteJob(jobs - gone.jobs, j) == CompleteJob(jobs, j) - gone.jobs
  {
  }

  lemma CommitPruned(s: System, job: Uuid, gone: Gone)
    requires RowsOk(s) && PhaseEarned(s.db.documents, s.db.jobIndex, s.eventOf, s.db.inbox)
    requires ConsumerOk(s.consumer, s.db.documents, s.requests, s.db.inbox)
    requires Final(s, gone) && s.consumer.HasDocument? && job !in s.used && s.consumer.m.eventId !in gone.inbox
    ensures DoCommit(Seen(s, gone), job) == Seen(DoCommit(s, job), gone)
  {
    var m, read, found := s.consumer.m, s.consumer.job, s.consumer.found;
    NoEnrichmentYet(s);
    JudgePruned(s, job, gone);
    AppliedPruned(s, job, gone);
    CommitSeen(s, job, gone);
  }

  /** Verdict and tables decide the rest. */
  lemma CommitSeen(s: System, job: Uuid, gone: Gone)
    requires s.consumer.HasDocument? && s.consumer.m.version > 0
    requires var m, read, found := s.consumer.m, s.consumer.job, s.consumer.found;
             && Judge(Pruned(s.db, gone), m, read, found, job) == Judge(s.db, m, read, found, job)
             && ApplyResult(Pruned(s.db, gone), m, read, found, job) == Pruned(ApplyResult(s.db, m, read, found, job), gone)
    ensures DoCommit(Seen(s, gone), job) == Seen(DoCommit(s, job), gone)
  {
    if Judge(s.db, s.consumer.m, s.consumer.job, s.consumer.found, job) == AppliedSuccess {
      SuccessSeen(s, job, gone);
    }
  }

  lemma SuccessSeen(s: System, job: Uuid, gone: Gone)
    requires s.consumer.HasDocument? && s.consumer.m.version > 0
    requires var m, read, found := s.consumer.m, s.consumer.job, s.consumer.found;
             && Judge(Pruned(s.db, gone), m, read, found, job) == AppliedSuccess == Judge(s.db, m, read, found, job)
             && ApplyResult(Pruned(s.db, gone), m, read, found, job) == Pruned(ApplyResult(s.db, m, read, found, job), gone)
    ensures DoCommit(Seen(s, gone), job) == Seen(DoCommit(s, job), gone)
  {
    var m, found := s.consumer.m, s.consumer.found;
    assert NewlyRecorded(Pruned(s.db, gone), m) == NewlyRecorded(s.db, m);
    assert Raced(Pruned(s.db, gone), m, found) <==> Raced(s.db, m, found);
  }

  lemma FailurePruned(s: System, m: ScrapeResult, found: Option<Document>, gone: Gone)
    requires Final(s, gone) && m.version > 0
    ensures ApplyFailure(Pruned(s.db, gone), m, found) == Pruned(ApplyFailure(s.db, m, found), gone)
  {
    JobsPruned(s, m.job, gone);
  }

  lemma AppliedPruned(s: System, job: Uuid, gone: Gone)
    requires s.consumer.HasDocument? && s.consumer.m.version > 0 && s.consumer.m.eventId !in gone.inbox
    requires Final(s, gone) && job !in s.db.jobs && job !in gone.jobs
    requires s.consumer.m.eventId !in s.db.inbox ==>
               JobKey(s.consumer.m.document, s.consumer.m.version, Enrich) !in s.db.jobIndex
    ensures var m, read, found := s.consumer.m, s.consumer.job, s.consumer.found;
            ApplyResult(Pruned(s.db, gone), m, read, found, job) == Pruned(ApplyResult(s.db, m, read, found, job), gone)
  {
    var m, read, found := s.consumer.m, s.consumer.job, s.consumer.found;
    JudgePruned(s, job, gone);
    match Judge(s.db, m, read, found, job)
    case RolledBack =>
    case Duplicate =>
    case Terminal => ReceivePruned(s.db, m, gone);
    case AppliedFailure =>
      FailurePruned(s, m, found, gone);
      ReceivePruned(ApplyFailure(s.db, m, found), m, gone);
    case AppliedSuccess =>
      SuccessPruned(s, m, found, job, gone);
      ReceivePruned(ApplySuccess(s.db, m, found, job), m, gone);
  }

  lemma NoEnrichmentYet(s: System)
    requires RowsOk(s) && PhaseEarned(s.db.documents, s.db.jobIndex, s.eventOf, s.db.inbox)
    requires ConsumerOk(s.consumer, s.db.documents, s.requests, s.db.inbox) && s.consumer.HasDocument?
    ensures s.consumer.m.version > 0
    ensures s.consumer.m.eventId !in s.db.inbox ==>
              JobKey(s.consumer.m.document, s.consumer.m.version, Enrich) !in s.db.jobIndex
  {
    var m := s.consumer.m;
    if m.eventId !in s.db.inbox && m.document in s.db.documents {
      ProofsConsume.NotYetApplied(s, m.eventId);
    }
  }

  lemma ConsumePruned(s: System, step: ConsumeStep, u: System, gone: Gone) returns (t: System)
    requires RowsOk(s) && PhaseEarned(s.db.documents, s.db.jobIndex, s.eventOf, s.db.inbox)
    requires ConsumerOk(s.consumer, s.db.documents, s.requests, s.db.inbox)
    requires Final(s, gone) && ConsumeNext(Seen(s, gone), step, u) && !Late(s, Consume(step), gone)
    ensures ConsumeNext(s, step, t) && u == Seen(t, gone)
  {
    match step
    case Receive(m, artifact) => t := DoReceive(s, m, artifact);
    case ReadDocument => t := DoReadDocument(s);
    case Commit(job) =>
      FreshPruned(s, [job], gone);
      ProofsApi.FreshOne(s, job);
      CommitPruned(s, job, gone);
      t := DoCommit(s, job);
    case StopConsumer => t := s.(consumer := Waiting);
  }

  // ----- the enrichment loop -----

  lemma TakePruned(s: System, picked: seq<Uuid>, gone: Gone)
    requires CanTakeJobs(Seen(s, gone), picked)
    ensures CanTakeJobs(s, picked) && DoTakeJobs(Seen(s, gone), picked) == Seen(DoTakeJobs(s, picked), gone)
  {
    assert ClaimJobs(s.db.jobs - gone.jobs, Elements(picked)) == ClaimJobs(s.db.jobs, Elements(picked)) - gone.jobs;
    assert ClaimedJobs(s.db.jobs - gone.jobs, picked) == ClaimedJobs(s.db.jobs, picked);
  }

  /** The job in hand has not been deleted: it is being processed. */
  lemma FinishPruned(s: System, extracted: string, summary: string, answered: bool, gone: Gone)
    requires Final(s, gone) && EnricherBusy(s) && s.enricher.stage.HasBoth?
    requires BatchHeld(s.enricher, s.used, s.db.jobs)
    ensures DoFinish(Seen(s, gone), extracted, summary, answered) == Seen(DoFinish(s, extracted, summary, answered), gone)
  {
    var c, version, document := Protocol.Current(s), s.enricher.stage.version, s.enricher.stage.document;
    assert c.id in s.db.jobs ==> s.db.jobs[c.id].state == Processing;
    EnrichmentPruned(s.db, c, version, document, extracted, summary, gone);
  }

  lemma EnrichmentPruned(db: Db, c: ClaimedJob, version: Version, document: Document, extracted: string, summary: string,
                         gone: Gone)
    requires c.id in db.jobs ==> c.id !in gone.jobs
    ensures CommitEnrichment(Pruned(db, gone), c, version, document, extracted, summary) ==
            match CommitEnrichment(db, c, version, document, extracted, summary)
            case None => None
            case Some(after) => Some(Pruned(after, gone))
  {
    CompletedPruned(db.jobs, c.id, gone);
  }

  lemma EnrichPruned(s: System, step: EnrichStep, u: System, gone: Gone) returns (t: System)
    requires Final(s, gone) && BatchHeld(s.enricher, s.used, s.db.jobs) && EnrichNext(Seen(s, gone), step, u)
    ensures EnrichNext(s, step, t) && u == Seen(t, gone)
  {
    match step
    case TakeJobs(picked) =>
      TakePruned(s, picked, gone);
      t := DoTakeJobs(s, picked);
    case ReadVersion => t := DoReadVersion(s);
    case ReadCurrent => t := DoReadCurrent(s);
    case FinishOutdated(answered) =>
      JobsPruned(s, Protocol.Current(s).id, gone);
      t := DoFinishOutdated(s, answered);
    case Finish(extracted, summary, answered) =>
      FinishPruned(s, extracted, summary, answered, gone);
      t := DoFinish(s, extracted, summary, answered);
    case Fail(stored) =>
      JobsPruned(s, Protocol.Current(s).id, gone);
      t := DoFail(s, stored);
    case Reject(stored) => t := DoReject(s, stored);
    case StopEnricher => t := s.(enricher := Enricher([], Fetched));
  }

  // ----- the cleanup loop and hard deletion -----

  lemma CleanPruned(s: System, step: CleanStep, u: System, gone: Gone) returns (t: System)
    requires CleanNext(Seen(s, gone), step, u)
    ensures CleanNext(s, step, t) && u == Seen(t, gone)
  {
    match step
    case TakeCleanup(picked) => t := DoTakeCleanup(s, picked);
    case List => t := DoList(s);
    case DeleteObject(target) => t := DoDeleteObject(s, target);
    case Complete => t := DoComplete(s);
    case GiveUpCleanup => t := DoGiveUpCleanup(s);
    case StopCleaner => t := s.(cleaner := Cleaner([], Unlisted));
  }

  lemma RemovePruned(db: Db, documents: set<Uuid>, gone: Gone)
    ensures RemoveDocuments(Pruned(db, gone), documents) == Pruned(RemoveDocuments(db, documents), gone)
  {
    var t, u := RemoveDocuments(db, documents), RemoveDocuments(Pruned(db, gone), documents);
    assert u.jobs == t.jobs - gone.jobs;
    assert u.jobIndex == Pruned(t, gone).jobIndex;
  }

  // ----- every step -----

  /** A step taken without the deleted rows is the same step taken with them. */
  lemma StepPruned(s: System, step: Step, u: System, gone: Gone) returns (t: System)
    requires Inv(s) && Final(s, gone) && Next(Seen(s, gone), step, u) && !Late(s, step, gone)
    ensures Next(s, step, t) && u == Seen(t, gone)
  {
    match step
    case Api(api) => t := ApiPruned(s, api, u, gone);
    case Dispatch(token, dispatch) => t := DispatchPruned(s, token, dispatch, u, gone);
    case Scraper(m) => t := DoScrape(s, m);
    case Consume(consume) => t := ConsumePruned(s, consume, u, gone);
    case Enriching(enrich) => t := EnrichPruned(s, enrich, u, gone);
    case Cleaning(clean) => t := CleanPruned(s, clean, u, gone);
    case PurgeDocuments(expired) =>
      RemovePruned(s.db, expired, gone);
      t := s.(db := RemoveDocuments(s.db, expired));
    case PurgeAccount(a) =>
      RemovePruned(s.db, OwnedDocuments(s.db.documents, a), gone);
      t := s.(db := RemoveAccount(s.db, a));
  }

  lemma OneMove(states: seq<System>, steps: seq<Step>, move: Move, v: System, gone: Gone)
    returns (states': seq<System>, steps': seq<Step>, gone': Gone)
    requires IsRun(states, steps) && Final(states[|steps|], gone) && MoveNext(Seen(states[|steps|], gone), move, v)
    requires move.Take? ==> !Late(states[|steps|], move.step, gone)
    ensures gone' == if move.Forget? then Union(gone, move.gone) else gone
    ensures IsRun(states', steps') && v == Seen(states'[|steps'|], gone') && Final(states'[|steps'|], gone')
  {
    var s := states[|steps|];
    RunKeeps(states, steps, |steps|);
    match move
    case Take(step) =>
      var t := StepPruned(s, step, v, gone);
      NextMoves(s, step, t);
      FinalNext(s, t, gone);
      gone' := gone;
      states', steps' := Extended(states, steps, step, t);
    case Forget(more) =>
      FinalForget(s, gone, more);
      states', steps', gone' := states, steps, Union(gone, more);
  }

  lemma Extended(states: seq<System>, steps: seq<Step>, step: Step, t: System)
    returns (states': seq<System>, steps': seq<Step>)
    requires IsRun(states, steps) && Next(states[|steps|], step, t)
    ensures IsRun(states', steps') && states'[|steps'|] == t
  {
    states', steps' := states + [t], steps + [step];
    forall i {:trigger steps'[i]} | 0 <= i < |steps'| ensures Next(states'[i], steps'[i], states'[i + 1]) {
      if i < |steps| {
        assert steps'[i] == steps[i];
      }
    }
  }

  // ----- every run -----

  /** A run with maintenance that keeps inbox rows long enough is a run of the protocol, seen without the
      rows deleted so far: documents, versions, chunks, cleanup rows and histories are the same. */
  lemma {:induction false} MaintenanceIsUnseen(us: seq<System>, moves: seq<Move>, n: nat)
    returns (states: seq<System>, steps: seq<Step>)
    requires IsMaintainedRun(us, moves) && n <= |moves| && Retained(us, moves, n)
    ensures IsRun(states, steps)
    ensures us[n] == Seen(states[|steps|], GoneBefore(moves, n)) && Final(states[|steps|], GoneBefore(moves, n))
  {
    if n == 0 {
      states, steps := [INITIAL], [];
    } else {
      states, steps := MaintenanceIsUnseen(us, moves, n - 1);
      MoveAt(us, moves, n - 1);
      states, steps := OneMoreMove(us, moves, n - 1, states, steps);
    }
  }

  lemma MoveAt(us: seq<System>, moves: seq<Move>, n: nat)
    requires IsMaintainedRun(us, moves) && n < |moves|
    ensures MoveNext(us[n], moves[n], us[n + 1])
  {
    assert MoveNext(us[n], moves[n], us[n + 1]);
  }

  lemma OneMoreMove(us: seq<System>, moves: seq<Move>, n: nat, states: seq<System>, steps: seq<Step>)
    returns (states': seq<System>, steps': seq<Step>)
    requires n < |moves| < |us| && Retained(us, moves, n + 1) && MoveNext(us[n], moves[n], us[n + 1])
    requires IsRun(states, steps)
    requires us[n] == Seen(states[|steps|], GoneBefore(moves, n)) && Final(states[|steps|], GoneBefore(moves, n))
    ensures IsRun(states', steps')
    ensures us[n + 1] == Seen(states'[|steps'|], GoneBefore(moves, n + 1)) && Final(states'[|steps'|], GoneBefore(moves, n + 1))
  {
    var gone := GoneBefore(moves, n);
    assert moves[n].Take? ==> !Late(us[n], moves[n].step, gone);
    states', steps', gone := OneMove(states, steps, moves[n], us[n + 1], gone);
  }

  /** Each scrape job has one applied result exactly if its event is in the inbox or has been, and none
      otherwise. */
  lemma AppliedOnce(us: seq<System>, moves: seq<Move>, n: nat, e: Uuid)
    requires IsMaintainedRun(us, moves) && n <= |moves| && Retained(us, moves, n) && e in us[n].requests
    ensures us[n].applied[us[n].requests[e].job] ==
            if e in us[n].db.inbox || e in GoneBefore(moves, n).inbox then 1 else 0
  {
    var states, steps := MaintenanceIsUnseen(us, moves, n);
    RunKeeps(states, steps, |steps|);
  }

  /** A live document that waits for its enrichment has a job that has not succeeded, and has not been deleted. */
  lemma WaitingHasJob(us: seq<System>, moves: seq<Move>, n: nat, d: Uuid)
    requires IsMaintainedRun(us, moves) && n <= |moves| && Retained(us, moves, n)
    requires us[n].db.Live(d) && us[n].db.documents[d].status == EnrichPending
    ensures var db := us[n].db;
            var k := JobKey(d, db.documents[d].currentVersion, Enrich);
            k in db.jobIndex && db.jobIndex[k] in db.jobs && db.jobs[db.jobIndex[k]].state != Succeeded
  {
    var states, steps := MaintenanceIsUnseen(us, moves, n);
    StatusBackedAt(states, steps, |steps|);
    WaitingIn(states[|steps|], GoneBefore(moves, n), d);
  }

  lemma StatusBackedAt(states: seq<System>, steps: seq<Step>, n: nat)
    requires IsRun(states, steps) && n < |states|
    ensures StatusBacked(states[n].db.documents, states[n].db.jobs, states[n].db.jobIndex)
  {
    RunKeeps(states, steps, n);
  }

  lemma WaitingIn(s: System, gone: Gone, d: Uuid)
    requires StatusBacked(s.db.documents, s.db.jobs, s.db.jobIndex) && Final(s, gone)
    requires s.db.Live(d) && s.db.documents[d].status == EnrichPending
    ensures var db := Pruned(s.db, gone);
            var k := JobKey(d, db.documents[d].currentVersion, Enrich);
            k in db.jobIndex && db.jobIndex[k] in db.jobs && db.jobs[db.jobIndex[k]].state != Succeeded
  {
  }

  /** Nothing but the job as it was read, and the guards of the transaction, stands in the way of a result
      whose inbox row is gone. */
  predicate Repeatable(db: Db, m: ScrapeResult, read: Job, found: Option<Document>)
    requires m.version > 0
  {
    && !TerminalDuplicate(m, read)
    && (m.eventType == SCRAPE_FAILED
        || (m.content != "" && VersionKey(m.document, m.version) in db.versions
            && (ReadAsCurrent(m, found) ==> db.Current(m.document, m.version) && m.fileSize >= 0)))
  }

  /** Retention is needed: such a result is applied a second time exactly if it is repeatable. If it is one of
      the version shown, the document goes back to the scrape phase or waits for its enrichment again,
      whatever had become of it. */
  lemma AppliedAgain(us: seq<System>, moves: seq<Move>, n: nat, job: Uuid)
    requires IsMaintainedRun(us, moves) && n < |moves| && Retained(us, moves, n)
    requires moves[n] == Take(Consume(Commit(job))) && Late(us[n], moves[n].step, GoneBefore(moves, n))
    ensures var m, read, found := us[n].consumer.m, us[n].consumer.job, us[n].consumer.found;
            && m.version > 0
            && us[n + 1].applied[m.job] == (if Repeatable(us[n].db, m, read, found) then 2 else 1)
            && (Repeatable(us[n].db, m, read, found) && ReadAsCurrent(m, found) && us[n].db.Current(m.document, m.version) ==>
                  && m.document in us[n + 1].db.documents
                  && us[n + 1].db.documents[m.document].status ==
                     if m.eventType == SCRAPE_FAILED then ScrapeRejected else EnrichPending)
  {
    var states, steps := MaintenanceIsUnseen(us, moves, n);
    RunKeeps(states, steps, |steps|);
    CommitAt(us, moves, n, job);
    LateVerdict(states[|steps|], GoneBefore(moves, n), job);
    LateCounts(states[|steps|], GoneBefore(moves, n), job);
    LateStatus(us[n], job);
  }

  lemma CommitAt(us: seq<System>, moves: seq<Move>, n: nat, job: Uuid)
    requires IsMaintainedRun(us, moves) && n < |moves| && moves[n] == Take(Consume(Commit(job)))
    ensures us[n].consumer.HasDocument? && us[n + 1] == DoCommit(us[n], job) && job !in us[n].used
  {
    MoveAt(us, moves, n);
    ProofsApi.FreshOne(us[n], job);
  }

  lemma LateVerdict(s: System, gone: Gone, job: Uuid)
    requires RowsOk(s) && ConsumerOk(s.consumer, s.db.documents, s.requests, s.db.inbox)
    requires s.consumer.HasDocument? && s.consumer.m.eventId in gone.inbox && job !in s.used
    ensures var m, read, found := s.consumer.m, s.consumer.job, s.consumer.found;
            var db := Pruned(s.db, gone);
            && m.version > 0
            && (Judge(db, m, read, found, job) in {AppliedFailure, AppliedSuccess} <==> Repeatable(db, m, read, found))
  {
  }

  lemma LateStatus(u: System, job: Uuid)
    requires u.consumer.HasDocument? && u.consumer.m.version > 0
    ensures var m, t := u.consumer.m, DoCommit(u, job);
            && Judge(u.db, m, u.consumer.job, u.consumer.found, job) in {AppliedFailure, AppliedSuccess}
            && ReadAsCurrent(m, u.consumer.found) && u.db.Current(m.document, m.version) ==>
              && m.document in t.db.documents
              && t.db.documents[m.document].status == if m.eventType == SCRAPE_FAILED then ScrapeRejected else EnrichPending
  {
  }

  lemma LateCounts(s: System, gone: Gone, job: Uuid)
    requires InboxExact(s.db.inbox, s.requests, s.eventOf, s.applied) && gone.inbox <= s.db.inbox.Keys
    requires ConsumerOk(s.consumer, s.db.documents, s.requests, s.db.inbox)
    requires s.consumer.HasDocument? && s.consumer.m.eventId in gone.inbox
    ensures var m, u := s.consumer.m, Seen(s, gone);
            && m.version > 0
            && DoCommit(u, job).applied[m.job] ==
               if Judge(u.db, m, s.consumer.job, s.consumer.found, job) in {AppliedFailure, AppliedSuccess} then 2 else 1
  {
    assert s.applied[s.consumer.m.job] == 1;
  }
}
