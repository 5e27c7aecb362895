/** The dispatcher of internal/worker/outbox.go, statement by statement. */
module Outbox {
  import opened Schema
  import opened Tables
  import opened Protocol
  import T = Transactions
  import Effects

  /** The request queue, as the messages it has taken, and every send with its answer. */
  class RequestQueue {
    var taken: seq<RequestEnvelope>
    var sends: seq<(RequestEnvelope, bool)>

    constructor ()
      ensures taken == [] && sends == []
    {
      taken, sends := [], [];
    }

    /** A send that reports an error may have reached the queue. */
    method SendMessage(body: RequestEnvelope) returns (ok: bool)
      modifies this
      ensures taken == old(taken) || taken == old(taken) + [body]
      ensures ok ==> taken == old(taken) + [body]
      ensures sends == old(sends) + [(body, ok)]
    {
      var reached := *;
      ok := *;
      if ok || reached {
        taken := taken + [body];
      }
      sends := sends + [(body, ok)];
    }
  }

  /** What handling one claimed event commits, and whether the batch goes on. */
  function Dispatched(db: Db, token: Uuid, c: ClaimedEvent, acknowledged: bool): (Db, bool) {
    if !T.ValidRequest(c.id, c.row) then (T.DeadLetter(db, c.id, token), true)
    else if !acknowledged then (T.SendFailed(db, c.id, token, c.row.attempts), true)
    else
      var after := T.MarkPublished(db, c.id, token, c.row.payload.data);
      (after.GetOr(db), after.Some?)
  }

  /** The events handled so far, by the queue's answers; a mark that hits no row ends the batch. */
  function AllDispatched(db: Db, token: Uuid, batch: seq<ClaimedEvent>, answers: seq<bool>): (Db, bool)
    requires |answers| <= |batch|
  {
    if answers == [] then (db, true)
    else
      var n := |answers| - 1;
      var before := AllDispatched(db, token, batch, answers[..n]);
      if !before.1 then before else Dispatched(before.0, token, batch[n], answers[n])
  }

  /** The sends for the events handled so far: each valid one is sent once, with the answer it gets. */
  function Sends(batch: seq<ClaimedEvent>, answers: seq<bool>): seq<(RequestEnvelope, bool)>
    requires |answers| <= |batch|
  {
    if answers == [] then []
    else
      var n := |answers| - 1;
      var c := batch[n];
      Sends(batch, answers[..n]) + if T.ValidRequest(c.id, c.row) then [(c.row.payload, answers[n])] else []
  }

  class OutboxDispatcher {
    const db: Database
    const queue: RequestQueue
    const token: Uuid

    constructor (db: Database, queue: RequestQueue, token: Uuid)
      ensures this.db == db && this.queue == queue && this.token == token
    {
      this.db, this.queue, this.token := db, queue, token;
    }

    method MarkPublishedAndProcessing(e: Uuid, request: ScrapeRequest) returns (ok: bool)
      modifies db
      ensures var after := T.MarkPublished(old(db.Snapshot()), e, token, request);
              && (ok <==> after.Some?)
              && db.Snapshot() == after.GetOr(old(db.Snapshot()))
      ensures ok <==> e in old(db.outbox) && old(db.outbox)[e].lock == Some(token) && !old(db.outbox)[e].published
      ensures var j := request.job;
              db.jobs == if ok && j in old(db.jobs) && old(db.jobs)[j].state in {Queued, Failed}
                         then old(db.jobs)[j := Job(old(db.jobs)[j].key, Processing, old(db.jobs)[j].attempts + 1)] else old(db.jobs)
    {
      Effects.PublishIsWritten(db.Snapshot(), e, token, request);
      var affected := db.MarkOutboxPublished(e, token);
      ok := affected == 1;
      if ok {
        var _ := db.MarkJobProcessing(request.job);
        var _ := db.MarkDocumentProcessing(request.document, request.version);
      }
    }

    /** One event: invalid ones are dead-lettered without being sent. */
    method Dispatch(c: ClaimedEvent) returns (acknowledged: bool, goOn: bool)
      modifies db, queue
      ensures (db.Snapshot(), goOn) == Dispatched(old(db.Snapshot()), token, c, acknowledged)
      ensures queue.taken == old(queue.taken) || queue.taken == old(queue.taken) + [c.row.payload]
      ensures acknowledged ==> T.ValidRequest(c.id, c.row) && queue.taken == old(queue.taken) + [c.row.payload]
      ensures !T.ValidRequest(c.id, c.row) ==> queue.taken == old(queue.taken)
      ensures queue.sends == old(queue.sends) + if T.ValidRequest(c.id, c.row) then [(c.row.payload, acknowledged)] else []
    {
      acknowledged, goOn := false, true;
      if !T.ValidRequest(c.id, c.row) {
        db.DeadLetterOutboxEvent(c.id, token);
        return;
      }
      acknowledged := queue.SendMessage(c.row.payload);
      if acknowledged {
        goOn := MarkPublishedAndProcessing(c.id, c.row.payload.data);
      } else if c.row.attempts >= T.LAST_ATTEMPT {
        db.DeadLetterOutboxEvent(c.id, token);
      } else {
        db.RescheduleOutboxEvent(c.id, token);
      }
    }

    /** Claims a batch and handles its events in turn. An event is marked published only after the
        queue has acknowledged its payload. */
    method DispatchBatch(limit: nat, due: set<Uuid>) returns (picked: seq<Uuid>, answers: seq<bool>, ok: bool)
      modifies db, queue
      ensures Selected(picked, (set e | e in old(db.outbox) && e in due && T.Claimable(old(db.outbox)[e])), limit)
      ensures |answers| <= |picked| && (ok ==> |answers| == |picked|)
      ensures (db.Snapshot(), ok) == AllDispatched(T.ClaimEvents(old(db.Snapshot()), token, Elements(picked)), token,
                                                   ClaimedEvents(old(db.outbox), picked), answers)
      ensures queue.sends == old(queue.sends) + Sends(ClaimedEvents(old(db.outbox), picked), answers)
      ensures old(queue.taken) <= queue.taken
      ensures forall i :: 0 <= i < |answers| && answers[i] ==>
                old(db.outbox)[picked[i]].payload in queue.taken[|old(queue.taken)|..]
    {
      ghost var before, sends := queue.taken, queue.sends;
      var rows := db.outbox;
      picked := db.ClaimOutboxEvents(token, limit, due);
      var batch := ClaimedEvents(rows, picked);
      ghost var claimed := db.Snapshot();
      answers, ok := [], true;
      while |answers| < |batch| && ok
        invariant |answers| <= |batch| && before <= queue.taken && queue.sends == sends + Sends(batch, answers)
        invariant (db.Snapshot(), ok) == AllDispatched(claimed, token, batch, answers)
        invariant forall i :: 0 <= i < |answers| && answers[i] ==> batch[i].row.payload in queue.taken[|before|..]
        decreases |batch| - |answers|
      {
        ghost var taken := queue.taken;
        var acknowledged, goOn := Dispatch(batch[|answers|]);
        assert queue.taken[|before|..] == taken[|before|..] + queue.taken[|taken|..];
        assert (answers + [acknowledged])[..|answers|] == answers;
        answers, ok := answers + [acknowledged], goOn;
      }
    }
  }

  // ----- what becomes of an event -----

  predicate Held(db: Db, token: Uuid, e: Uuid) {
    e in db.outbox && db.outbox[e].lock == Some(token) && !db.outbox[e].published
  }

  /** The row afterwards: published if it was valid and the queue has acknowledged it, else with one more
      attempt, given back unless it was invalid or this was the tenth attempt. */
  function Ended(row: OutboxEvent, c: ClaimedEvent, acknowledged: bool): OutboxEvent {
    if T.ValidRequest(c.id, c.row) && acknowledged then row.(published := true)
    else row.(attempts := row.attempts + 1, lock := None,
              deadLettered := row.deadLettered || !T.ValidRequest(c.id, c.row) || c.row.attempts >= 9)
  }

  lemma EventIsDispatched(db: Db, token: Uuid, c: ClaimedEvent, acknowledged: bool)
    ensures var after := Dispatched(db, token, c, acknowledged);
            && (after.1 <==> !T.ValidRequest(c.id, c.row) || !acknowledged || Held(db, token, c.id))
            && after.0.outbox == (if Held(db, token, c.id) then db.outbox[c.id := Ended(db.outbox[c.id], c, acknowledged)] else db.outbox)
            && (!(T.ValidRequest(c.id, c.row) && acknowledged) ==> after.0 == db.(outbox := after.0.outbox))
            && (T.ValidRequest(c.id, c.row) && acknowledged ==>
                  after.0 == T.MarkPublished(db, c.id, token, c.row.payload.data).GetOr(db))
  {
    Effects.PublishIsWritten(db, c.id, token, c.row.payload.data);
    Effects.FailedSendIsWritten(db, c.id, token, c.row.attempts);
    Effects.DeadLetterIsWritten(db, c.id, token);
  }

  /** A batch whose events are all held goes through to its end, and each event ends by its own answer. */
  lemma {:induction false} BatchIsDispatched(db: Db, token: Uuid, batch: seq<ClaimedEvent>, answers: seq<bool>)
    requires |answers| <= |batch|
    requires forall i, j :: 0 <= i < j < |batch| ==> batch[i].id != batch[j].id
    requires forall i :: 0 <= i < |batch| ==> Held(db, token, batch[i].id)
    ensures var after := AllDispatched(db, token, batch, answers);
            after.1 && EndedUpTo(db.outbox, after.0.outbox, batch, answers)
  {
    if answers != [] {
      var n := |answers| - 1;
      var before := AllDispatched(db, token, batch, answers[..n]);
      BatchIsDispatched(db, token, batch, answers[..n]);
      EventIsDispatched(before.0, token, batch[n], answers[n]);
      OneMoreEnds(db.outbox, before.0.outbox, batch, answers, n);
    }
  }

  /** The first events of the batch have ended by their answers, and no other row has changed. */
  ghost predicate EndedUpTo(outbox: map<Uuid, OutboxEvent>, after: map<Uuid, OutboxEvent>, batch: seq<ClaimedEvent>,
                            answers: seq<bool>)
    requires |answers| <= |batch|
  {
    && after.Keys == outbox.Keys
    && (forall i :: 0 <= i < |answers| ==>
          && batch[i].id in outbox
          && after[batch[i].id] == Ended(outbox[batch[i].id], batch[i], answers[i]))
    && (forall e :: e in outbox && (forall i :: 0 <= i < |answers| ==> batch[i].id != e) ==> after[e] == outbox[e])
  }

  lemma OneMoreEnds(outbox: map<Uuid, OutboxEvent>, before: map<Uuid, OutboxEvent>, batch: seq<ClaimedEvent>,
                    answers: seq<bool>, n: nat)
    requires |answers| == n + 1 <= |batch| && batch[n].id in outbox && EndedUpTo(outbox, before, batch, answers[..n])
    requires forall i, j :: 0 <= i < j < |batch| ==> batch[i].id != batch[j].id
    ensures before[batch[n].id] == outbox[batch[n].id]
    ensures EndedUpTo(outbox, before[batch[n].id := Ended(outbox[batch[n].id], batch[n], answers[n])], batch, answers)
  {
  }

  /** A mark that hits no row ends the batch: the events after it are left as they are. */
  lemma {:induction false} StoppedBatch(db: Db, token: Uuid, batch: seq<ClaimedEvent>, answers: seq<bool>, n: nat)
    requires n <= |answers| <= |batch| && !AllDispatched(db, token, batch, answers[..n]).1
    ensures AllDispatched(db, token, batch, answers) == AllDispatched(db, token, batch, answers[..n])
    decreases |answers|
  {
    var m := |answers| - 1;
    if n <= m {
      assert answers[..m][..n] == answers[..n];
      StoppedBatch(db, token, batch, answers[..m], n);
    } else {
      assert answers[..n] == answers;
    }
  }
}
