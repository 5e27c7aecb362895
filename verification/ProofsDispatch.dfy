/** The steps of the dispatchers keep the invariant, however many there are. */
module ProofsDispatch {
  import opened Schema
  import opened Transactions
  import opened Protocol
  import opened Invariants
  import opened ProofsMoves

  // ----- leases and sends: only the outbox and the dispatchers change -----

  lemma DeliveryStepKeeps(s: System, t: System)
    requires Inv(s)
    requires t == s.(db := s.db.(outbox := t.db.outbox), sent := t.sent, dispatchers := t.dispatchers)
    requires OutboxValid(t.db.outbox, s.requests) && DeliveryOk(t)
    ensures Inv(t)
  {
  }

  lemma DispatcherReplaced(dispatchers: map<Uuid, Dispatcher>, outbox: map<Uuid, OutboxEvent>, sent: set<Uuid>,
                           token: Uuid, dispatcher: Dispatcher)
    requires DispatchersOk(dispatchers, outbox, sent) && DispatcherOk(token, dispatcher, outbox, sent)
    ensures DispatchersOk(dispatchers[token := dispatcher], outbox, sent)
  {
  }

  lemma StartKeeps(s: System, token: Uuid)
    requires Inv(s)
    ensures Inv(DoStart(s, token))
  {
  }

  lemma NextEventOk(token: Uuid, dispatcher: Dispatcher, outbox: map<Uuid, OutboxEvent>, sent: set<Uuid>)
    requires dispatcher.batch != [] && DispatcherOk(token, dispatcher, outbox, sent)
    ensures DispatcherOk(token, NextEvent(dispatcher), outbox, sent)
    ensures DispatcherOk(token, Dispatcher([], Unsent), outbox, sent)
  {
  }

  lemma StopKeeps(s: System, token: Uuid)
    requires Inv(s)
    ensures Inv(s.(dispatchers := s.dispatchers - {token}))
  {
  }

  lemma SkipKeeps(s: System, token: Uuid, rest: bool)
    requires Inv(s) && token in s.dispatchers && s.dispatchers[token].batch != []
    ensures Inv(DoSkip(s, token, rest))
  {
    NextEventOk(token, s.dispatchers[token], s.db.outbox, s.sent);
    DispatcherReplaced(s.dispatchers, s.db.outbox, s.sent, token, DoSkip(s, token, rest).dispatchers[token]);
    DeliveryStepKeeps(s, DoSkip(s, token, rest));
  }

  /** Rows keep what a dispatcher relies on: the request, and the attempts while the token is there. */
  ghost predicate RowsFollow(outbox: map<Uuid, OutboxEvent>, after: map<Uuid, OutboxEvent>, token: Uuid) {
    forall e :: e in outbox ==>
      && e in after
      && after[e].payload == outbox[e].payload && after[e].eventType == outbox[e].eventType
      && after[e].aggregate == outbox[e].aggregate
      && (after[e].lock == Some(token) ==> outbox[e].lock == Some(token) && after[e].attempts == outbox[e].attempts)
  }

  lemma DispatcherFollows(token: Uuid, dispatcher: Dispatcher, outbox: map<Uuid, OutboxEvent>,
                          after: map<Uuid, OutboxEvent>, sent: set<Uuid>)
    requires DispatcherOk(token, dispatcher, outbox, sent) && RowsFollow(outbox, after, token)
    ensures DispatcherOk(token, dispatcher, after, sent)
  {
  }

  lemma DispatchersFollow(dispatchers: map<Uuid, Dispatcher>, outbox: map<Uuid, OutboxEvent>,
                          after: map<Uuid, OutboxEvent>, sent: set<Uuid>, mine: Uuid, dispatcher: Dispatcher)
    requires DispatchersOk(dispatchers, outbox, sent)
    requires forall token :: token != mine ==> RowsFollow(outbox, after, token)
    requires DispatcherOk(mine, dispatcher, after, sent)
    ensures DispatchersOk(dispatchers[mine := dispatcher], after, sent)
  {
    forall token | token in dispatchers && token != mine ensures DispatcherOk(token, dispatchers[token], after, sent) {
      DispatcherFollows(token, dispatchers[token], outbox, after, sent);
    }
  }

  // ----- lease -----

  lemma LeaseRows(db: Db, requests: map<Uuid, ScrapeRequest>, sent: set<Uuid>, token: Uuid, picked: set<Uuid>)
    requires OutboxValid(db.outbox, requests) && OutboxSafe(db.outbox, sent)
    requires forall e :: e in picked ==> e in db.outbox && Claimable(db.outbox[e])
    ensures var after := ClaimEvents(db, token, picked).outbox;
            && OutboxValid(after, requests) && OutboxSafe(after, sent)
            && forall other :: other != token ==> RowsFollow(db.outbox, after, other)
  {
  }

  lemma LeaseBatch(db: Db, sent: set<Uuid>, token: Uuid, picked: seq<Uuid>)
    requires Distinct(picked) && forall i :: 0 <= i < |picked| ==> picked[i] in db.outbox
    ensures DispatcherOk(token, Dispatcher(ClaimedEvents(db.outbox, picked), Unsent),
                         ClaimEvents(db, token, Elements(picked)).outbox, sent)
  {
  }

  lemma LeaseKeeps(s: System, token: Uuid, picked: seq<Uuid>)
    requires Inv(s) && CanLease(s, token, picked)
    ensures Inv(DoLease(s, token, picked))
  {
    var t := DoLease(s, token, picked);
    LeaseRows(s.db, s.requests, s.sent, token, Elements(picked));
    LeaseBatch(s.db, s.sent, token, picked);
    DispatchersFollow(s.dispatchers, s.db.outbox, t.db.outbox, s.sent, token, t.dispatchers[token]);
    LeaseTokens(s.db, s.dispatchers, s.used, token, Elements(picked), t.dispatchers[token]);
    DeliveryStepKeeps(s, t);
  }

  lemma LeaseTokens(db: Db, dispatchers: map<Uuid, Dispatcher>, used: set<Uuid>, token: Uuid, picked: set<Uuid>, mine: Dispatcher)
    requires TokensUsed(db.outbox, dispatchers, used) && token in dispatchers
    ensures TokensUsed(ClaimEvents(db, token, picked).outbox, dispatchers[token := mine], used)
  {
  }

  // ----- send -----

  lemma SendGrows(dispatchers: map<Uuid, Dispatcher>, outbox: map<Uuid, OutboxEvent>, sent: set<Uuid>, more: set<Uuid>)
    requires DispatchersOk(dispatchers, outbox, sent) && OutboxSafe(outbox, sent) && sent <= more
    ensures DispatchersOk(dispatchers, outbox, more) && OutboxSafe(outbox, more)
  {
  }

  lemma SendKeeps(s: System, token: Uuid, delivered: bool, acknowledged: bool)
    requires Inv(s) && Busy(s, token, Unsent)
    ensures Inv(DoSend(s, token, delivered, acknowledged))
  {
    var t := DoSend(s, token, delivered, acknowledged);
    SendGrows(s.dispatchers, s.db.outbox, s.sent, t.sent);
    DispatcherReplaced(s.dispatchers, s.db.outbox, t.sent, token, t.dispatchers[token]);
    DeliveryStepKeeps(s, t);
  }

  // ----- a failed send -----

  /** One row is replaced by one that carries the same request. */
  lemma RowReplaced(outbox: map<Uuid, OutboxEvent>, requests: map<Uuid, ScrapeRequest>, sent: set<Uuid>,
                    dispatchers: map<Uuid, Dispatcher>, used: set<Uuid>, e: Uuid, row: OutboxEvent)
    requires OutboxValid(outbox, requests) && OutboxSafe(outbox, sent) && TokensUsed(outbox, dispatchers, used)
    requires e in outbox && RowSafe(e, row, sent)
    requires row.payload == outbox[e].payload && row.eventType == outbox[e].eventType && row.aggregate == outbox[e].aggregate
    requires row.lock.None? || (row.lock == outbox[e].lock && row.attempts == outbox[e].attempts)
    ensures var after := outbox[e := row];
            && OutboxValid(after, requests) && OutboxSafe(after, sent) && TokensUsed(after, dispatchers, used)
            && forall token :: RowsFollow(outbox, after, token)
  {
  }

  /** The row after a failed send that still held the lease. */
  function FailedRow(row: OutboxEvent, attempts: nat): OutboxEvent {
    row.(attempts := row.attempts + 1, lock := None, deadLettered := row.deadLettered || attempts >= LAST_ATTEMPT)
  }

  lemma FailedRowSafe(e: Uuid, row: OutboxEvent, sent: set<Uuid>)
    requires RowSafe(e, row, sent) && row.lock.Some? && !row.published
    ensures RowSafe(e, FailedRow(row, row.attempts), sent)
  {
  }

  lemma SendFailedShape(db: Db, e: Uuid, token: Uuid, attempts: nat)
    ensures SendFailed(db, e, token, attempts).outbox ==
            if Leased(db, e, token) then db.outbox[e := FailedRow(db.outbox[e], attempts)] else db.outbox
  {
  }

  lemma FailedSendRow(db: Db, requests: map<Uuid, ScrapeRequest>, sent: set<Uuid>, dispatchers: map<Uuid, Dispatcher>,
                      used: set<Uuid>, e: Uuid, token: Uuid, attempts: nat)
    requires OutboxValid(db.outbox, requests) && OutboxSafe(db.outbox, sent) && TokensUsed(db.outbox, dispatchers, used)
    requires Leased(db, e, token) ==> attempts == db.outbox[e].attempts
    ensures var after := SendFailed(db, e, token, attempts).outbox;
            && OutboxValid(after, requests) && OutboxSafe(after, sent) && TokensUsed(after, dispatchers, used)
            && forall any :: RowsFollow(db.outbox, after, any)
  {
    SendFailedShape(db, e, token, attempts);
    if Leased(db, e, token) {
      FailedRowSafe(e, db.outbox[e], sent);
      RowReplaced(db.outbox, requests, sent, dispatchers, used, e, FailedRow(db.outbox[e], attempts));
    }
  }

  lemma GiveUpKeeps(s: System, token: Uuid)
    requires Inv(s) && Busy(s, token, Refused)
    ensures Inv(DoGiveUp(s, token))
  {
    var t := DoGiveUp(s, token);
    var c := Head(s, token);
    var next := NextEvent(s.dispatchers[token]);
    assert ClaimCurrent(token, c, s.db.outbox);
    FailedSendRow(s.db, s.requests, s.sent, s.dispatchers, s.used, c.id, token, c.row.attempts);
    NextEventOk(token, s.dispatchers[token], s.db.outbox, s.sent);
    DispatcherFollows(token, next, s.db.outbox, t.db.outbox, s.sent);
    DispatchersFollow(s.dispatchers, s.db.outbox, t.db.outbox, s.sent, token, next);
    DeliveryStepKeeps(s, t);
  }

  // ----- the mark after a delivered send -----

  lemma PublishMovesJobs(jobs: map<Uuid, Job>, jobIndex: map<JobKey, Uuid>, documents: map<Uuid, Document>,
                         requests: map<Uuid, ScrapeRequest>, eventOf: map<Uuid, Uuid>, inbox: map<Uuid, bool>, e: Uuid)
    requires RequestsPaired(requests, eventOf) && ScrapesRequested(documents, jobIndex, requests, eventOf)
    requires JobsIndexed(documents, jobs, jobIndex) && TerminalReceived(jobs, eventOf, inbox) && e in requests
    ensures var after := MarkJobProcessing(jobs, requests[e].job);
            ScrapeJobsMoved(jobs, after) && TerminalReceived(after, eventOf, inbox)
  {
    assert requests[e].job in eventOf;
  }

  lemma PublishMovesDocuments(documents: map<Uuid, Document>, d: Uuid, v: nat)
    ensures StatusMoved(documents, MarkDocumentProcessing(documents, d, v))
  {
  }

  /** The job and the document part of the mark. */
  lemma PublishTables(s: System, request: ScrapeRequest, e: Uuid)
    requires Inv(s) && e in s.requests && s.requests[e] == request
    ensures Inv(s.(db := s.db.(jobs := MarkJobProcessing(s.db.jobs, request.job),
                               documents := MarkDocumentProcessing(s.db.documents, request.document, request.version))))
  {
    var jobs := MarkJobProcessing(s.db.jobs, request.job);
    var documents := MarkDocumentProcessing(s.db.documents, request.document, request.version);
    PublishMovesJobs(s.db.jobs, s.db.jobIndex, s.db.documents, s.requests, s.eventOf, s.db.inbox, e);
    PublishMovesDocuments(s.db.documents, request.document, request.version);
    ScrapeJobsMovedKeeps(s, jobs);
    StatusMovedKeeps(s.(db := s.db.(jobs := jobs)), documents);
  }

  lemma PublishShape(s: System, token: Uuid, t: System)
    requires Busy(s, token, Delivered) && Leased(s.db, Head(s, token).id, token)
    requires var c := Head(s, token);
             t == s.(db := s.db.(outbox := s.db.outbox[c.id := s.db.outbox[c.id].(published := true)]),
                     dispatchers := s.dispatchers[token := NextEvent(s.dispatchers[token])])
    ensures var request := Head(s, token).row.payload.data;
            DoPublish(s, token) ==
            t.(db := t.db.(jobs := MarkJobProcessing(t.db.jobs, request.job),
                           documents := MarkDocumentProcessing(t.db.documents, request.document, request.version)))
  {
  }

  lemma PublishKeeps(s: System, token: Uuid)
    requires Inv(s) && Busy(s, token, Delivered)
    ensures Inv(DoPublish(s, token))
  {
    var c := Head(s, token);
    if Leased(s.db, c.id, token) {
      assert c.id in s.requests && c.row.payload.data == s.requests[c.id] by {
        assert ClaimCurrent(token, c, s.db.outbox);
      }
      var t := PublishRow(s, token);
      PublishTables(t, s.requests[c.id], c.id);
      PublishShape(s, token, t);
    } else {
      SkipKeeps(s, token, true);
    }
  }

  /** The outbox part of the mark. */
  lemma PublishRow(s: System, token: Uuid) returns (t: System)
    requires Inv(s) && Busy(s, token, Delivered) && Leased(s.db, Head(s, token).id, token)
    ensures var c := Head(s, token);
            t == s.(db := s.db.(outbox := s.db.outbox[c.id := s.db.outbox[c.id].(published := true)]),
                    dispatchers := s.dispatchers[token := NextEvent(s.dispatchers[token])])
    ensures Inv(t)
  {
    var c := Head(s, token);
    var row := s.db.outbox[c.id].(published := true);
    var next := NextEvent(s.dispatchers[token]);
    t := s.(db := s.db.(outbox := s.db.outbox[c.id := row]), dispatchers := s.dispatchers[token := next]);
    assert ClaimCurrent(token, c, s.db.outbox);
    assert RowSafe(c.id, s.db.outbox[c.id], s.sent);
    RowReplaced(s.db.outbox, s.requests, s.sent, s.dispatchers, s.used, c.id, row);
    NextEventOk(token, s.dispatchers[token], s.db.outbox, s.sent);
    DispatcherFollows(token, next, s.db.outbox, t.db.outbox, s.sent);
    DispatchersFollow(s.dispatchers, s.db.outbox, t.db.outbox, s.sent, token, next);
    DeliveryStepKeeps(s, t);
  }

  /** No row a service wrote fails the envelope check. */
  lemma NothingInvalid(s: System, token: Uuid)
    requires OutboxValid(s.db.outbox, s.requests) && DispatchersOk(s.dispatchers, s.db.outbox, s.sent)
    requires Busy(s, token, Unsent)
    ensures ValidRequest(Head(s, token).id, Head(s, token).row)
  {
  }

  lemma DispatchKeeps(s: System, token: Uuid, step: DispatchStep, t: System)
    requires Inv(s) && DispatchNext(s, token, step, t)
    ensures Inv(t)
  {
    match step
    case Start => StartKeeps(s, token);
    case Stop => StopKeeps(s, token);
    case Lease(picked) => LeaseKeeps(s, token, picked);
    case Send(delivered, acknowledged) => SendKeeps(s, token, delivered, acknowledged);
    case Publish => PublishKeeps(s, token);
    case GiveUp => GiveUpKeeps(s, token);
    case DropInvalid => NothingInvalid(s, token);
    case Skip(rest) => SkipKeeps(s, token, rest);
  }
}
