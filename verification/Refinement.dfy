/** The workers, run statement by statement without interruption, take steps of the protocol: what
    the methods of Outbox, ScrapeResults, Enrichment and Cleanup are proved to compute is where a
    path of protocol steps leads. */
module Refinement {
  import opened Schema
  import opened Transactions
  import opened Protocol
  import E = Enrichment
  import O = Outbox
  import R = ScrapeResults

  ghost predicate Leads(s: System, steps: seq<Step>, t: System)
    decreases |steps|
  {
    if steps == [] then s == t
    else exists u :: Next(s, steps[0], u) && Leads(u, steps[1..], t)
  }

  lemma LeadsOn(s: System, step: Step, u: System, steps: seq<Step>, t: System)
    requires Next(s, step, u) && Leads(u, steps, t)
    ensures Leads(s, [step] + steps, t)
  {
    assert ([step] + steps)[1..] == steps;
  }

  // ----- dispatcher -----

  /** Handling the event at hand, whatever the queue answers. */
  lemma DispatchedBySteps(s: System, token: Uuid, acknowledged: bool) returns (steps: seq<Step>, t: System)
    requires Busy(s, token, Unsent)
    ensures Leads(s, steps, t) && t.db == O.Dispatched(s.db, token, Head(s, token), acknowledged).0
    ensures token in t.dispatchers
            && t.dispatchers[token].batch == if O.Dispatched(s.db, token, Head(s, token), acknowledged).1
                                             then s.dispatchers[token].batch[1..] else []
  {
    if !ValidRequest(Head(s, token).id, Head(s, token).row) {
      t := DoDropInvalid(s, token);
      steps := [Dispatch(token, DropInvalid)];
      LeadsOn(s, steps[0], t, [], t);
    } else if acknowledged {
      var u := DoSend(s, token, true, true);
      t := DoPublish(u, token);
      LeadsOn(u, Dispatch(token, Publish), t, [], t);
      steps := [Dispatch(token, Send(true, true))] + ([Dispatch(token, Publish)] + []);
      LeadsOn(s, steps[0], u, [Dispatch(token, Publish)] + [], t);
    } else {
      var u := DoSend(s, token, false, false);
      t := DoGiveUp(u, token);
      LeadsOn(u, Dispatch(token, GiveUp), t, [], t);
      steps := [Dispatch(token, Send(false, false))] + ([Dispatch(token, GiveUp)] + []);
      LeadsOn(s, steps[0], u, [Dispatch(token, GiveUp)] + [], t);
    }
  }

  // ----- result consumer -----

  lemma ThreeSteps(s: System, a: Step, u: System, b: Step, v: System, c: Step, t: System)
    requires Next(s, a, u) && Next(u, b, v) && Next(v, c, t)
    ensures Leads(s, [a] + ([b] + ([c] + [])), t)
  {
    LeadsOn(v, c, t, [], t);
    LeadsOn(u, b, v, [c] + [], t);
    LeadsOn(s, a, u, [b] + ([c] + []), t);
  }

  lemma CommittedDb(s: System, id: Uuid)
    requires s.consumer.HasDocument? && s.consumer.m.version > 0
    ensures DoCommit(s, id).consumer.Waiting?
    ensures DoCommit(s, id).db == ApplyResult(s.db, s.consumer.m, s.consumer.job, s.consumer.found, id)
  {
  }

  /** Handling any message: one of the queue that passes the checks, its artifact read, goes through three
      steps; every other one is refused before the transaction and changes nothing. */
  lemma HandledBySteps(s: System, message: R.Message, id: Uuid) returns (steps: seq<Step>, t: System)
    requires s.consumer.Waiting? && Fresh(s, [id]) && (message.body.Some? ==> message.body.value in s.results)
    ensures Leads(s, steps, t) && t.consumer.Waiting? && t.db == R.Handle(s.db, message, id).0
  {
    if Refused(s.db, message) {
      steps, t := [], s;
    } else {
      var m, artifact := message.body.value, message.artifact.GetOr("");
      PreparedContent(message);
      steps, t := PassedBySteps(s, m, artifact, id);
    }
  }

  predicate Refused(db: Db, message: R.Message) {
    var prepared := R.Prepared(message);
    prepared.None? || prepared.value.job !in db.jobs || !MatchesJob(prepared.value, db.jobs[prepared.value.job])
  }

  lemma PreparedContent(message: R.Message)
    requires R.Prepared(message).Some?
    ensures message.body.Some? && ValidEnvelope(message.body.value)
    ensures R.Prepared(message).value == WithContent(message.body.value, message.artifact.GetOr(""))
  {
  }

  lemma PassedBySteps(s: System, m: ScrapeResult, artifact: string, id: Uuid) returns (steps: seq<Step>, t: System)
    requires s.consumer.Waiting? && m in s.results && Fresh(s, [id]) && ValidEnvelope(m)
    requires m.job in s.db.jobs && MatchesJob(m, s.db.jobs[m.job])
    ensures Leads(s, steps, t) && t.consumer.Waiting?
    ensures var full := WithContent(m, artifact);
            t.db == ApplyResult(s.db, full, s.db.jobs[m.job], FindLive(s.db, m.document), id)
  {
    var u := DoReceive(s, m, artifact);
    var v := DoReadDocument(u);
    t := DoCommit(v, id);
    CommittedDb(v, id);
    CanCommitNext(v, id);
    ThreeSteps(s, Consume(Receive(m, artifact)), u, Consume(ReadDocument), v, Consume(Commit(id)), t);
    steps := [Consume(Receive(m, artifact))] + ([Consume(ReadDocument)] + ([Consume(Commit(id))] + []));
  }

  lemma CanCommitNext(s: System, id: Uuid)
    requires s.consumer.HasDocument? && Fresh(s, [id])
    ensures Next(s, Consume(Commit(id)), DoCommit(s, id))
  {
  }

  // ----- enrichment loop -----

  lemma RejectedBySteps(s: System) returns (steps: seq<Step>, t: System)
    requires EnricherBusy(s) && !s.enricher.stage.Rejecting?
    ensures Leads(s, steps, t) && t.enricher == NextJob(s) && t.db == E.Rejected(s.db, Protocol.Current(s))
  {
    var u := DoFail(s, true);
    t := DoReject(u, true);
    LeadsOn(u, Enriching(Reject(true)), t, [], t);
    LeadsOn(s, Enriching(Fail(true)), u, [Enriching(Reject(true))] + [], t);
    steps := [Enriching(Fail(true))] + ([Enriching(Reject(true))] + []);
  }

  lemma FinishNext(s: System, extracted: string, summary: string, answered: bool)
    requires EnricherBusy(s) && s.enricher.stage.HasBoth?
    ensures Next(s, Enriching(Finish(extracted, summary, answered)), DoFinish(s, extracted, summary, answered))
  {
  }

  lemma FinishedBySteps(s: System, reply: E.Reply) returns (steps: seq<Step>, t: System)
    requires EnricherBusy(s) && s.enricher.stage.HasBoth?
    requires var version, document := s.enricher.stage.version, s.enricher.stage.document;
             Planned(s, reply) == if E.ContentToEnrich(version, document, reply).None? then None
                                  else CommitEnrichment(s.db, Protocol.Current(s), version, document,
                                                        reply.extracted.GetOr(""), reply.summary.value)
    ensures Leads(s, steps, t) && t.enricher == NextJob(s) && t.db == E.Attempted(s.db, Protocol.Current(s), reply)
  {
    if Planned(s, reply).None? || reply.outcome.Aborted? {
      steps, t := RejectedBySteps(s);
    } else {
      steps, t := CommittedBySteps(s, reply.extracted.GetOr(""), reply.summary.value, reply.outcome.Confirmed?);
    }
  }

  /** The transaction commits, and says so or not. */
  lemma CommittedBySteps(s: System, extracted: string, summary: string, answered: bool) returns (steps: seq<Step>, t: System)
    requires EnricherBusy(s) && s.enricher.stage.HasBoth?
    requires CommitEnrichment(s.db, Protocol.Current(s), s.enricher.stage.version, s.enricher.stage.document,
                              extracted, summary).Some?
    ensures Leads(s, steps, t) && t.enricher == NextJob(s)
    ensures var db := CommitEnrichment(s.db, Protocol.Current(s), s.enricher.stage.version, s.enricher.stage.document,
                                       extracted, summary).value;
            t.db == if answered then db else E.Rejected(db, Protocol.Current(s))
  {
    var u := DoFinish(s, extracted, summary, answered);
    steps, t := RepliedBySteps(u, s, answered);
    FinishNext(s, extracted, summary, answered);
    LeadsOn(s, Enriching(Finish(extracted, summary, answered)), u, steps, t);
    steps := [Enriching(Finish(extracted, summary, answered))] + steps;
  }

  function Planned(s: System, reply: E.Reply): Option<Db>
    requires EnricherBusy(s)
  {
    E.Processed(s.db, Protocol.Current(s), reply)
  }

  /** After a commit: nothing is left to do, or its reply is lost and the job is failed and rejected. */
  lemma RepliedBySteps(u: System, s: System, answered: bool) returns (steps: seq<Step>, t: System)
    requires EnricherBusy(s) && u.enricher == Replied(s, answered)
    ensures Leads(u, steps, t) && t.enricher == NextJob(s)
    ensures t.db == if answered then u.db else E.Rejected(u.db, Protocol.Current(s))
  {
    if answered {
      steps, t := [], u;
    } else {
      steps, t := RejectedBySteps(u);
    }
  }

  lemma ReadBySteps(s: System, reply: E.Reply) returns (steps: seq<Step>, t: System)
    requires EnricherBusy(s) && s.enricher.stage.HasVersion?
    requires var k := VersionKey(Protocol.Current(s).document, Protocol.Current(s).version);
             k in s.db.versions && s.enricher.stage.version == s.db.versions[k]
    ensures Leads(s, steps, t) && t.enricher == NextJob(s) && t.db == E.Attempted(s.db, Protocol.Current(s), reply)
  {
    var u := DoReadCurrent(s);
    if u.enricher.stage.Outdated? {
      if reply.outcome.Aborted? {
        steps, t := RejectedBySteps(u);
      } else {
        var answered := reply.outcome.Confirmed?;
        var v := DoFinishOutdated(u, answered);
        steps, t := RepliedBySteps(v, u, answered);
        LeadsOn(u, Enriching(FinishOutdated(answered)), v, steps, t);
        steps := [Enriching(FinishOutdated(answered))] + steps;
      }
    } else {
      steps, t := FinishedBySteps(u, reply);
    }
    LeadsOn(s, Enriching(ReadCurrent), u, steps, t);
    steps := [Enriching(ReadCurrent)] + steps;
  }

  /** Processing the job at hand, and failing and rejecting it if that does not succeed. */
  lemma AttemptedBySteps(s: System, reply: E.Reply) returns (steps: seq<Step>, t: System)
    requires EnricherBusy(s) && s.enricher.stage.Fetched?
    ensures Leads(s, steps, t) && t.enricher == NextJob(s) && t.db == E.Attempted(s.db, Protocol.Current(s), reply)
  {
    if VersionKey(Protocol.Current(s).document, Protocol.Current(s).version) in s.db.versions {
      var u := DoReadVersion(s);
      steps, t := ReadBySteps(u, reply);
      LeadsOn(s, Enriching(ReadVersion), u, steps, t);
      steps := [Enriching(ReadVersion)] + steps;
    } else {
      steps, t := RejectedBySteps(s);
    }
  }

  // ----- cleanup loop -----

  /** What is still undeleted after these objects have been deleted. */
  ghost predicate Deleted(s: System, gone: set<S3Object>, t: System)
    requires s.cleaner.stage.Deleting?
  {
    && (forall r :: r in t.undeleted <==> r in s.undeleted && r.target !in gone)
    && t.db == s.db && t.cleaner == s.cleaner.(stage := Deleting(s.cleaner.stage.todo - gone))
  }

  lemma {:induction false} DeletedBySteps(s: System, gone: set<S3Object>) returns (steps: seq<Step>, t: System)
    requires CleanerBusy(s) && s.cleaner.stage.Deleting? && gone <= s.cleaner.stage.todo
    ensures Leads(s, steps, t) && Deleted(s, gone, t)
    decreases |gone|
  {
    if gone == {} {
      steps, t := [], s;
      assert s.cleaner.stage.todo - gone == s.cleaner.stage.todo;
    } else {
      var target :| target in gone;
      var u := DoDeleteObject(s, target);
      steps, t := DeletedBySteps(u, gone - {target});
      LeadsOn(s, Cleaning(DeleteObject(target)), u, steps, t);
      steps := [Cleaning(DeleteObject(target))] + steps;
      assert s.cleaner.stage.todo - {target} - (gone - {target}) == s.cleaner.stage.todo - gone;
    }
  }

  lemma {:induction false} LeadsThen(s: System, steps: seq<Step>, u: System, step: Step, t: System)
    requires Leads(s, steps, u) && Next(u, step, t)
    ensures Leads(s, steps + [step], t)
    decreases |steps|
  {
    if steps == [] {
      LeadsOn(u, step, t, [], t);
      assert [] + [step] == [step] + [];
    } else {
      var v :| Next(s, steps[0], v) && Leads(v, steps[1..], u);
      LeadsThen(v, steps[1..], u, step, t);
      LeadsOn(s, steps[0], v, steps[1..] + [step], t);
      assert steps + [step] == [steps[0]] + (steps[1..] + [step]);
    }
  }

  /** A cleanup that completes, when every deletion succeeds, or fails, when some may not have. */
  lemma CleanedBySteps(s: System, gone: set<S3Object>, ok: bool) returns (steps: seq<Step>, t: System)
    requires CleanerBusy(s) && s.cleaner.stage.Unlisted?
    requires gone <= ObjectsOf(s.db.documents, s.db.versions, s.cleaner.batch[0])
    requires ok ==> gone == ObjectsOf(s.db.documents, s.db.versions, s.cleaner.batch[0])
                    && CleanupCompletable(s.db.cleanup, s.cleaner.batch[0])
    ensures Leads(s, steps, t) && t.cleaner == Cleaner(s.cleaner.batch[1..], Unlisted)
    ensures t.db == s.db.(cleanup := if ok then CompleteCleanup(s.db.cleanup, s.cleaner.batch[0])
                                     else FailCleanup(s.db.cleanup, s.cleaner.batch[0]))
    ensures forall r :: r in t.undeleted <==> r in s.undeleted && r.target !in gone
  {
    var u := DoList(s);
    var rest, v := DeletedBySteps(u, gone);
    var last := if ok then Cleaning(CleanStep.Complete) else Cleaning(GiveUpCleanup);
    t := if ok then DoComplete(v) else DoGiveUpCleanup(v);
    assert ok ==> v.cleaner.stage == Deleting({});
    LeadsThen(u, rest, v, last, t);
    LeadsOn(s, Cleaning(List), u, rest + [last], t);
    steps := [Cleaning(List)] + (rest + [last]);
  }
}
