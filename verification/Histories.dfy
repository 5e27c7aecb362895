/** What a step of a run has written and no later step takes away: the keys and the text of a result, the text
    of a memo, and the mark of a published event. */
module Histories {
  import opened Schema
  import opened Transactions
  import opened Protocol
  import opened Invariants
  import opened Runs
  import opened Progress
  import Effects
  import ProofsApi
  import ProofsConsume
  import ProofsEnrich
  import Text

  // ----- the text of a version row -----

  /** The row has a text, which for a webpage is that of its result. */
  ghost predicate HasText(s: System, k: VersionKey) {
    && k in s.db.versions && k.document in s.db.documents && Text.Trim(s.db.versions[k].content) != ""
    && (s.db.documents[k.document].kind == Webpage ==> Received(s, k))
  }

  lemma BeginKeepsText(s: System, n: NewVersion, k: VersionKey)
    requires RowsOk(s) && ProofsApi.CanBegin(s, n) && k in s.db.versions
    ensures var t := DoBegin(s, Some(n)); k in t.db.versions && t.db.versions[k] == s.db.versions[k]
  {
    ProofsApi.BeginUnmet(s, n);
    ProofsApi.BeginShape(s, n);
  }

  lemma DeletionKeepsText(s: System, owner: Uuid, d: Uuid)
    ensures DoRemove(s, owner, d).db.versions == s.db.versions && DoLeave(s, owner).db.versions == s.db.versions
  {
  }

  lemma BegunKeepsText(s: System, step: ApiStep, t: System, k: VersionKey)
    requires RowsOk(s) && ProofsApi.Begins(step) && ApiNext(s, step, t) && k in s.db.versions
    ensures k in t.db.versions && t.db.versions[k] == s.db.versions[k]
  {
    ProofsApi.PlanNext(s, step, t);
    if ProofsApi.PlanOf(s.db, step).Some? {
      BeginKeepsText(s, ProofsApi.PlanOf(s.db, step).value, k);
    }
  }

  lemma RequestKeepsText(s: System, step: ApiStep, t: System)
    requires ApiNext(s, step, t) && !ProofsApi.Begins(step)
    ensures t.db.versions == s.db.versions
  {
    match step
    case Remove(owner, d) => DeletionKeepsText(s, owner, d);
    case Leave(a) => DeletionKeepsText(s, a, NIL);
    case _ =>
  }

  lemma ApiKeepsText(s: System, step: ApiStep, t: System, k: VersionKey)
    requires RowsOk(s) && ApiNext(s, step, t) && k in s.db.versions
    ensures k in t.db.versions && t.db.versions[k] == s.db.versions[k]
  {
    if ProofsApi.Begins(step) {
      BegunKeepsText(s, step, t, k);
    } else {
      RequestKeepsText(s, step, t);
    }
  }

  lemma MarksKeepText(db: Db, e: Uuid, token: Uuid, request: ScrapeRequest, attempts: nat)
    ensures MarkPublished(db, e, token, request).Some? ==> MarkPublished(db, e, token, request).value.versions == db.versions
    ensures SendFailed(db, e, token, attempts).versions == db.versions && DeadLetter(db, e, token).versions == db.versions
  {
  }

  lemma DispatchKeepsText(s: System, token: Uuid, step: DispatchStep, t: System)
    requires DispatchNext(s, token, step, t)
    ensures t.db.versions == s.db.versions
  {
    if step.Publish? || step.GiveUp? || step.DropInvalid? {
      var c := Head(s, token);
      MarksKeepText(s.db, c.id, token, c.row.payload.data, c.row.attempts);
    }
  }

  /** What the consumer commits, and which rows it leaves. */
  lemma CommittedRows(db: Db, m: ScrapeResult, job: Job, found: Option<Document>, enrichJob: Uuid)
    requires m.version > 0 && enrichJob != m.job
    ensures var t, key := ApplyResult(db, m, job, found, enrichJob), VersionKey(m.document, m.version);
            && t.versions.Keys == db.versions.Keys
            && (forall k :: k in db.versions && (k != key || Judge(db, m, job, found, enrichJob) != AppliedSuccess) ==>
                  t.versions[k] == db.versions[k])
  {
    Effects.ResultIsJudged(db, m, job, found, enrichJob);
    if Judge(db, m, job, found, enrichJob) == AppliedSuccess {
      Effects.ResultIsWritten(db, m, job, found, enrichJob);
      SameElsewhere(db.versions, ApplyResult(db, m, job, found, enrichJob).versions, VersionKey(m.document, m.version));
    } else if Judge(db, m, job, found, enrichJob) == AppliedFailure {
      Effects.FailureIsWritten(db, m, job, found, enrichJob);
    } else {
      Effects.NothingElseIsWritten(db, m, job, found, enrichJob);
    }
  }

  lemma SameElsewhere(before: map<VersionKey, Version>, after: map<VersionKey, Version>, key: VersionKey)
    requires key in before && key in after && after - {key} == before - {key}
    ensures after.Keys == before.Keys && forall k :: k in before && k != key ==> after[k] == before[k]
  {
    assert after.Keys == (after - {key}).Keys + {key} && before.Keys == (before - {key}).Keys + {key};
    forall k | k in before && k != key ensures after[k] == before[k] {
      assert k in before - {key} && k in after - {key};
    }
  }

  lemma CommitIsResult(s: System, job: Uuid)
    requires s.consumer.HasDocument? && s.consumer.m.version > 0
    ensures DoCommit(s, job).db == ApplyResult(s.db, s.consumer.m, s.consumer.job, s.consumer.found, job)
    ensures DoCommit(s, job).applied != s.applied ==>
              Judge(s.db, s.consumer.m, s.consumer.job, s.consumer.found, job) in {AppliedSuccess, AppliedFailure}
  {
  }

  /** A result is written once, before its version has a text that stays. */
  lemma CommitKeepsText(s: System, job: Uuid, k: VersionKey)
    requires RowsOk(s) && PhaseEarned(s.db.documents, s.db.jobIndex, s.eventOf, s.db.inbox)
    requires ConsumerOk(s.consumer, s.db.documents, s.requests, s.db.inbox)
    requires s.consumer.HasDocument? && job !in s.used && HasText(s, k)
    ensures var t := DoCommit(s, job); k in t.db.versions && t.db.versions[k] == s.db.versions[k]
  {
    var m := s.consumer.m;
    if ProofsConsume.Applying(s, job) {
      ProofsConsume.ApplyingRequested(s, job);
      ProofsConsume.NotYetApplied(s, m.eventId);
    }
    CommitIsResult(s, job);
    CommittedRows(s.db, m, s.consumer.job, s.consumer.found, job);
  }

  lemma ConsumeKeepsText(s: System, step: ConsumeStep, t: System, k: VersionKey)
    requires RowsOk(s) && PhaseEarned(s.db.documents, s.db.jobIndex, s.eventOf, s.db.inbox)
    requires ConsumerOk(s.consumer, s.db.documents, s.requests, s.db.inbox)
    requires ConsumeNext(s, step, t) && HasText(s, k)
    ensures k in t.db.versions && t.db.versions[k] == s.db.versions[k]
  {
    if step.Commit? {
      ProofsApi.FreshOne(s, step.job);
      CommitKeepsText(s, step.job, k);
    }
  }

  /** The text that is enriched is the one that is there. */
  lemma EnrichKeepsText(s: System, step: EnrichStep, t: System, k: VersionKey)
    requires SnapshotKept(s.enricher, s.db.documents, s.db.versions)
    requires EnrichNext(s, step, t) && HasText(s, k)
    ensures k in t.db.versions && t.db.versions[k].content == s.db.versions[k].content
  {
  }

  /** What this needs of the invariant. */
  ghost predicate RowsKnown(s: System) {
    && RowsOk(s) && PhaseEarned(s.db.documents, s.db.jobIndex, s.eventOf, s.db.inbox)
    && ConsumerOk(s.consumer, s.db.documents, s.requests, s.db.inbox)
    && SnapshotKept(s.enricher, s.db.documents, s.db.versions)
  }

  predicate Rest(step: Step) { step.Scraper? || step.Cleaning? || step.PurgeDocuments? || step.PurgeAccount? }

  lemma RestKeepsText(s: System, step: Step, t: System, k: VersionKey)
    requires Rest(step) && Next(s, step, t) && k in t.db.versions
    ensures k in s.db.versions && t.db.versions[k] == s.db.versions[k]
  {
    match step
    case Cleaning(clean) => CleaningKeepsText(s, clean, t);
    case PurgeDocuments(expired) => Effects.DocumentsAreRemoved(s.db, expired);
    case PurgeAccount(a) => Effects.DocumentsAreRemoved(s.db, OwnedDocuments(s.db.documents, a));
    case _ =>
  }

  lemma CleaningKeepsText(s: System, step: CleanStep, t: System)
    requires CleanNext(s, step, t)
    ensures t.db.versions == s.db.versions
  {
  }

  lemma StepKeepsText(s: System, step: Step, t: System, k: VersionKey)
    requires RowsKnown(s) && Next(s, step, t) && HasText(s, k) && k in t.db.versions
    ensures t.db.versions[k].content == s.db.versions[k].content
  {
    if Rest(step) {
      RestKeepsText(s, step, t, k);
    } else {
      match step
      case Api(api) => ApiKeepsText(s, api, t, k);
      case Dispatch(token, dispatch) => DispatchKeepsText(s, token, dispatch, t);
      case Consume(consume) => ConsumeKeepsText(s, consume, t, k);
      case Enriching(enrich) => EnrichKeepsText(s, enrich, t, k);
    }
  }

  lemma TextKeptAt(states: seq<System>, steps: seq<Step>, n: nat, k: VersionKey)
    requires IsRun(states, steps) && n < |steps| && HasText(states[n], k) && k.document in states[n + 1].db.documents
    ensures HasText(states[n + 1], k) && states[n + 1].db.versions[k].content == states[n].db.versions[k].content
  {
    RunKeeps(states, steps, n);
    RunStep(states, steps, n);
    ExactStep(states, steps, n);
    assert DocumentMoves(states[n].db.documents[k.document], states[n + 1].db.documents[k.document]);
    if Received(states[n], k) {
      ReceivedKept(states[n], states[n + 1], k);
    }
    StepKeepsText(states[n], steps[n], states[n + 1], k);
  }

  /** Once a version has its text, no step of a run changes it while the document is there. */
  lemma {:induction false} TextStays(states: seq<System>, steps: seq<Step>, i: nat, j: nat, k: VersionKey)
    requires IsRun(states, steps) && i <= j < |states| && HasText(states[i], k) && k.document in states[j].db.documents
    ensures HasText(states[j], k) && states[j].db.versions[k].content == states[i].db.versions[k].content
    decreases j
  {
    if i < j {
      ThereBefore(states, steps, i, j - 1, k.document);
      TextStays(states, steps, i, j - 1, k);
      TextKeptAt(states, steps, j - 1, k);
    }
  }

  /** A document that is gone does not come back. */
  lemma ThereBefore(states: seq<System>, steps: seq<Step>, i: nat, n: nat, d: Uuid)
    requires IsRun(states, steps) && i <= n < |steps| && d in states[i].db.documents && d in states[n + 1].db.documents
    ensures d in states[n].db.documents
  {
    ExactAt(states, steps, i);
    RunMoves(states, steps, i, n);
    StepMoves(states, steps, n);
  }

  // ----- results -----

  /** Step i applies a completed result. */
  ghost predicate AppliesResult(states: seq<System>, steps: seq<Step>, i: nat)
    requires i < |steps| < |states|
  {
    && steps[i].Consume? && steps[i].consume.Commit? && states[i].consumer.HasDocument?
    && var m := states[i].consumer.m;
       m.eventType == "document.scrape.completed.v1" && states[i + 1].applied[m.job] > states[i].applied[m.job]
  }

  lemma AppliedIn(s: System, job: Uuid)
    requires RowsOk(s) && ConsumerOk(s.consumer, s.db.documents, s.requests, s.db.inbox)
    requires s.consumer.HasDocument? && job !in s.used && s.consumer.m.eventType == "document.scrape.completed.v1"
    requires DoCommit(s, job).applied[s.consumer.m.job] > s.applied[s.consumer.m.job]
    ensures s.consumer.m.version > 0 && ProofsConsume.Applying(s, job)
    ensures Effects.ResultWritten(s.db, s.consumer.m, s.consumer.found, DoCommit(s, job).db)
    ensures s.consumer.m.eventId in DoCommit(s, job).db.inbox
  {
    var m := s.consumer.m;
    CommitIsResult(s, job);
    Effects.ResultIsJudged(s.db, m, s.consumer.job, s.consumer.found, job);
    assert "document.scrape.completed.v1" != "document.scrape.failed.v1" by {
      assert |"document.scrape.completed.v1"| != |"document.scrape.failed.v1"|;
    }
    Effects.ResultIsWritten(s.db, m, s.consumer.job, s.consumer.found, job);
  }

  lemma AppliedAt(states: seq<System>, steps: seq<Step>, i: nat)
    requires IsRun(states, steps) && i < |steps| && AppliesResult(states, steps, i)
    ensures var s, m := states[i], states[i].consumer.m;
            && m.version > 0 && ProofsConsume.Applying(s, steps[i].consume.job)
            && Effects.ResultWritten(s.db, m, s.consumer.found, states[i + 1].db) && m.eventId in states[i + 1].db.inbox
  {
    RunKeeps(states, steps, i);
    CommitAt(states, steps, i);
    AppliedIn(states[i], steps[i].consume.job);
  }

  lemma AppliedIsReceived(states: seq<System>, steps: seq<Step>, i: nat)
    requires IsRun(states, steps) && i < |steps| && AppliesResult(states, steps, i)
    requires states[i].consumer.m.document in states[i + 1].db.documents
    ensures var m := states[i].consumer.m; m.version > 0 && Received(states[i + 1], VersionKey(m.document, m.version))
  {
    AppliedAt(states, steps, i);
    RequestedAt(states, steps, i);
    ReceivedAt(states, steps, i + 1, states[i].consumer.m.eventId);
  }

  lemma RequestedAt(states: seq<System>, steps: seq<Step>, i: nat)
    requires IsRun(states, steps) && i < |steps| && states[i].consumer.HasDocument?
    requires steps[i].Consume? && steps[i].consume.Commit? && ProofsConsume.Applying(states[i], steps[i].consume.job)
    ensures var m, requests := states[i].consumer.m, states[i + 1].requests;
            m.eventId in requests && requests[m.eventId].document == m.document && requests[m.eventId].version == m.version
  {
    RunKeeps(states, steps, i);
    ProofsConsume.ApplyingRequested(states[i], steps[i].consume.job);
    StepMoves(states, steps, i);
  }

  lemma CommitAt(states: seq<System>, steps: seq<Step>, i: nat)
    requires IsRun(states, steps) && i < |steps| && steps[i].Consume? && steps[i].consume.Commit?
    ensures states[i].consumer.HasDocument? && states[i + 1] == DoCommit(states[i], steps[i].consume.job)
    ensures steps[i].consume.job !in states[i].used
  {
    RunStep(states, steps, i);
    ProofsApi.FreshOne(states[i], steps[i].consume.job);
  }

  lemma ReceivedAt(states: seq<System>, steps: seq<Step>, n: nat, e: Uuid)
    requires IsRun(states, steps) && n < |states| && e in states[n].requests && e in states[n].db.inbox
    requires states[n].requests[e].document in states[n].db.documents
    ensures Received(states[n], VersionKey(states[n].requests[e].document, states[n].requests[e].version))
  {
    RunKeeps(states, steps, n);
    NowReceived(states[n], e, states[n].requests[e].document, states[n].requests[e].version);
  }

  lemma NowReceived(s: System, e: Uuid, d: Uuid, v: nat)
    requires RowsOk(s) && e in s.requests && e in s.db.inbox && s.requests[e].document == d && s.requests[e].version == v
    requires d in s.db.documents
    ensures Received(s, VersionKey(d, v))
  {
  }

  /** In every later state of the run in which the document is still there, the version row of an applied result
      has both its artifact keys, and its text unless that is blank. */
  lemma AppliedResultStays(states: seq<System>, steps: seq<Step>, i: nat, j: nat)
    requires IsRun(states, steps) && i < |steps| && i < j < |states| && AppliesResult(states, steps, i)
    requires states[i].consumer.m.document in states[j].db.documents
    ensures var m := states[i].consumer.m;
            && m.version > 0
            && var k := VersionKey(m.document, m.version);
               && k in states[j].db.versions
               && states[j].db.versions[k].rawKey == m.rawKey && states[j].db.versions[k].contentKey == m.contentKey
               && (Text.Trim(m.content) != "" ==> states[j].db.versions[k].content == m.content)
  {
    var m := states[i].consumer.m;
    AppliedAt(states, steps, i);
    ExactAt(states, steps, i + 1);
    ExactAt(states, steps, j);
    RunMoves(states, steps, i + 1, j);
    var k := VersionKey(m.document, m.version);
    assert k in states[i + 1].db.versions && k.document in states[i + 1].db.documents;
    AppliedIsReceived(states, steps, i);
    StillNamed(states[i + 1], states[j], k);
    if Text.Trim(m.content) != "" {
      TextStays(states, steps, i + 1, j, k);
    }
  }

  lemma StillNamed(s: System, t: System, k: VersionKey)
    requires Exact(s) && Exact(t) && DocumentsMove(s, t) && VersionsMove(s, t) && Received(s, k)
    requires k in s.db.versions && k.document in t.db.documents
    ensures k in t.db.versions && SameArtifacts(s.db.versions[k], t.db.versions[k])
  {
  }

  // ----- memos -----

  /** The step writes the text for the version of a memo. */
  predicate WritesMemo(step: Step, k: VersionKey, text: string) {
    && step.Api?
    && (step.api.NewMemo? || step.api.EditMemo?) && step.api.document == k.document
    && (step.api.NewMemo? <==> k.version == 1)
    && text == Text.Trim(step.api.content) && text != "" && Text.ByteLength(text) <= 5242880
  }

  lemma MemoIsBegun(s: System, step: Step, t: System, k: VersionKey)
    requires RowsKnown(s) && Next(s, step, t) && k !in s.db.versions && k in t.db.versions
    requires k.document in t.db.documents && t.db.documents[k.document].kind == Memo
    ensures WritesMemo(step, k, t.db.versions[k].content)
  {
    if Rest(step) {
      RestKeepsText(s, step, t, k);
    } else {
      match step
      case Api(api) => ApiBeginsMemo(s, api, t, k);
      case Dispatch(token, dispatch) => DispatchKeepsText(s, token, dispatch, t);
      case Consume(consume) => ConsumeAddsNoRow(s, consume, t);
      case Enriching(enrich) => EnrichAddsNoRow(s, enrich, t);
    }
  }

  lemma ConsumeAddsNoRow(s: System, step: ConsumeStep, t: System)
    requires RowsOk(s) && ConsumerOk(s.consumer, s.db.documents, s.requests, s.db.inbox) && ConsumeNext(s, step, t)
    ensures t.db.versions.Keys == s.db.versions.Keys
  {
    if step.Commit? {
      ProofsApi.FreshOne(s, step.job);
      CommitIsResult(s, step.job);
      CommittedRows(s.db, s.consumer.m, s.consumer.job, s.consumer.found, step.job);
    }
  }

  lemma EnrichmentAddsNoRow(db: Db, c: ClaimedJob, version: Version, document: Document, extracted: string, summary: string)
    ensures var after := CommitEnrichment(db, c, version, document, extracted, summary);
            after.Some? ==> after.value.versions.Keys == db.versions.Keys
  {
  }

  lemma EnrichAddsNoRow(s: System, step: EnrichStep, t: System)
    requires EnrichNext(s, step, t)
    ensures t.db.versions.Keys == s.db.versions.Keys
  {
    if step.Finish? {
      EnrichmentAddsNoRow(s.db, Protocol.Current(s), s.enricher.stage.version, s.enricher.stage.document,
                          step.extracted, step.summary);
    }
  }

  lemma ApiBeginsMemo(s: System, step: ApiStep, t: System, k: VersionKey)
    requires RowsOk(s) && ApiNext(s, step, t) && k !in s.db.versions && k in t.db.versions
    requires k.document in t.db.documents && t.db.documents[k.document].kind == Memo
    ensures WritesMemo(Api(step), k, t.db.versions[k].content)
  {
    if !ProofsApi.Begins(step) {
      RequestKeepsText(s, step, t);
    } else {
      ProofsApi.PlanNext(s, step, t);
      PlanIsBegun(s, ProofsApi.PlanOf(s.db, step), k);
      MemoIsPlanned(s.db, step);
    }
  }

  /** The new row is that of the plan. */
  lemma PlanIsBegun(s: System, plan: Option<NewVersion>, k: VersionKey)
    requires k !in s.db.versions && k in DoBegin(s, plan).db.versions
    ensures plan.Some? && k == plan.value.Key() && DoBegin(s, plan).db.versions[k] == plan.value.version
    ensures k.document in DoBegin(s, plan).db.documents && DoBegin(s, plan).db.documents[k.document] == plan.value.document
  {
    if plan.Some? && BeginVersion(s.db, plan.value).Some? {
      RowIsBegun(s.db, plan.value, k);
    }
  }

  lemma RowIsBegun(db: Db, n: NewVersion, k: VersionKey)
    requires BeginVersion(db, n).Some? && k !in db.versions && k in BeginVersion(db, n).value.versions
    ensures var t := BeginVersion(db, n).value;
            k == n.Key() && t.versions[k] == n.version && k.document in t.documents && t.documents[k.document] == n.document
  {
  }

  lemma MemoIsPlanned(db: Db, step: ApiStep)
    requires ProofsApi.PlanOf(db, step).Some? && ProofsApi.PlanOf(db, step).value.document.kind == Memo
    requires VersionsExact(db.documents, db.versions) && (step.NewFile? ==> step.file.kind in {Image, File})
    ensures var n := ProofsApi.PlanOf(db, step).value; WritesMemo(Api(step), n.Key(), n.version.content)
  {
  }

  ghost predicate IsMemo(s: System, k: VersionKey) {
    k in s.db.versions && k.document in s.db.documents && s.db.documents[k.document].kind == Memo
  }

  /** What a step does to the row of a memo, whatever step it is. */
  ghost predicate KeepsMemo(s: System, step: Step, t: System, k: VersionKey) {
    IsMemo(t, k) ==>
      if k in s.db.versions
      then IsMemo(s, k) && (Text.Trim(s.db.versions[k].content) != "" ==> t.db.versions[k].content == s.db.versions[k].content)
      else WritesMemo(step, k, t.db.versions[k].content)
  }

  lemma KeepsMemoAt(states: seq<System>, steps: seq<Step>, n: nat, k: VersionKey)
    requires IsRun(states, steps) && n < |steps|
    ensures KeepsMemo(states[n], steps[n], states[n + 1], k)
  {
    RunKeeps(states, steps, n);
    RunStep(states, steps, n);
    if IsMemo(states[n + 1], k) {
      if k in states[n].db.versions {
        ExactStep(states, steps, n);
        assert DocumentMoves(states[n].db.documents[k.document], states[n + 1].db.documents[k.document]);
        if HasText(states[n], k) {
          StepKeepsText(states[n], steps[n], states[n + 1], k);
        }
      } else {
        MemoIsBegun(states[n], steps[n], states[n + 1], k);
      }
    }
  }

  /** A run, as far as the row is concerned. */
  ghost predicate MemoRun(states: seq<System>, steps: seq<Step>, k: VersionKey) {
    && |states| == |steps| + 1 && k !in states[0].db.versions
    && forall i {:trigger steps[i]} :: 0 <= i < |steps| ==> KeepsMemo(states[i], steps[i], states[i + 1], k)
  }

  lemma {:induction false} MemoText(states: seq<System>, steps: seq<Step>, n: nat, k: VersionKey) returns (i: nat)
    requires MemoRun(states, steps, k) && n < |states| && IsMemo(states[n], k)
    ensures i < n && WritesMemo(steps[i], k, states[n].db.versions[k].content)
    decreases n
  {
    assert KeepsMemo(states[n - 1], steps[n - 1], states[n], k);
    if k in states[n - 1].db.versions {
      i := MemoText(states, steps, n - 1, k);
      Text.TrimIdempotent(steps[i].api.content);
    } else {
      i := n - 1;
    }
  }

  /** In every state of every run the version row of a memo holds the trimmed text of the request that created
      the version, whatever has been enriched since. */
  lemma MemoKeepsItsText(states: seq<System>, steps: seq<Step>, n: nat, k: VersionKey) returns (i: nat)
    requires IsRun(states, steps) && n < |states| && IsMemo(states[n], k)
    ensures i < n && WritesMemo(steps[i], k, states[n].db.versions[k].content)
  {
    forall j | 0 <= j < |steps| ensures KeepsMemo(states[j], steps[j], states[j + 1], k) {
      KeepsMemoAt(states, steps, j, k);
    }
    i := MemoText(states, steps, n, k);
  }

  // ----- publication -----

  ghost predicate Published(s: System, e: Uuid) { e in s.db.outbox && s.db.outbox[e].published }

  lemma OnlyPublishPublishes(s: System, token: Uuid, step: DispatchStep, t: System, e: Uuid)
    requires DispatchNext(s, token, step, t) && Published(t, e) && !Published(s, e)
    ensures step.Publish? && Head(s, token).id == e
  {
    if step.Publish? || step.GiveUp? || step.DropInvalid? {
      var c := Head(s, token);
      Effects.PublishIsWritten(s.db, c.id, token, c.row.payload.data);
      Effects.FailedSendIsWritten(s.db, c.id, token, c.row.attempts);
      Effects.DeadLetterIsWritten(s.db, c.id, token);
    }
  }

  lemma BegunIsUnpublished(s: System, step: ApiStep, t: System, e: Uuid)
    requires RowsOk(s) && ApiNext(s, step, t) && Published(t, e)
    ensures Published(s, e)
  {
    if ProofsApi.Begins(step) {
      ProofsApi.PlanNext(s, step, t);
      if ProofsApi.PlanOf(s.db, step).Some? {
        ProofsApi.BeginUnmet(s, ProofsApi.PlanOf(s.db, step).value);
        ProofsApi.BeginShape(s, ProofsApi.PlanOf(s.db, step).value);
      }
    } else {
      RequestLeavesOutbox(s, step, t);
    }
  }

  lemma RequestLeavesOutbox(s: System, step: ApiStep, t: System)
    requires ApiNext(s, step, t) && !ProofsApi.Begins(step)
    ensures t.db.outbox == s.db.outbox
  {
  }

  lemma ConsumeLeavesOutbox(s: System, step: ConsumeStep, t: System)
    requires RowsOk(s) && ConsumerOk(s.consumer, s.db.documents, s.requests, s.db.inbox) && ConsumeNext(s, step, t)
    ensures t.db.outbox == s.db.outbox
  {
    if step.Commit? {
      ProofsApi.FreshOne(s, step.job);
      CommitIsResult(s, step.job);
      ResultLeavesOutbox(s.db, s.consumer.m, s.consumer.job, s.consumer.found, step.job);
    }
  }

  lemma ResultLeavesOutbox(db: Db, m: ScrapeResult, job: Job, found: Option<Document>, enrichJob: Uuid)
    requires m.version > 0 && enrichJob != m.job
    ensures ApplyResult(db, m, job, found, enrichJob).outbox == db.outbox
  {
    Effects.ResultIsJudged(db, m, job, found, enrichJob);
    if Judge(db, m, job, found, enrichJob) == AppliedSuccess {
      Effects.ResultIsWritten(db, m, job, found, enrichJob);
    } else if Judge(db, m, job, found, enrichJob) == AppliedFailure {
      Effects.FailureIsWritten(db, m, job, found, enrichJob);
    } else {
      Effects.NothingElseIsWritten(db, m, job, found, enrichJob);
    }
  }

  lemma RestLeavesOutbox(s: System, step: Step, t: System)
    requires Rest(step) && Next(s, step, t)
    ensures t.db.outbox == s.db.outbox
  {
    match step
    case Cleaning(clean) => CleaningLeavesOutbox(s, clean, t);
    case _ =>
  }

  lemma CleaningLeavesOutbox(s: System, step: CleanStep, t: System)
    requires CleanNext(s, step, t)
    ensures t.db.outbox == s.db.outbox
  {
  }

  lemma EnrichLeavesOutbox(s: System, step: EnrichStep, t: System)
    requires EnrichNext(s, step, t)
    ensures t.db.outbox == s.db.outbox
  {
  }

  lemma PublishedBy(s: System, step: Step, t: System, e: Uuid)
    requires RowsKnown(s) && Next(s, step, t) && Published(t, e) && !Published(s, e)
    ensures step.Dispatch? && step.dispatch.Publish? && Busy(s, step.token, Delivered) && Head(s, step.token).id == e
  {
    if Rest(step) {
      RestLeavesOutbox(s, step, t);
    } else {
      match step
      case Api(api) => BegunIsUnpublished(s, api, t, e);
      case Dispatch(token, dispatch) => OnlyPublishPublishes(s, token, dispatch, t, e);
      case Consume(consume) => ConsumeLeavesOutbox(s, consume, t);
      case Enriching(enrich) => EnrichLeavesOutbox(s, enrich, t);
    }
  }

  /** The mark of an event whose token is on the row: the event is published, and the scrape job of its request
      is being worked on if it was queued or had failed. */
  lemma PublishMarks(s: System, token: Uuid)
    requires OutboxValid(s.db.outbox, s.requests) && DispatchersOk(s.dispatchers, s.db.outbox, s.sent)
    requires Busy(s, token, Delivered)
    requires var e := Head(s, token).id; e in s.db.outbox && s.db.outbox[e].lock == Some(token) && !s.db.outbox[e].published
    ensures var e, t := Head(s, token).id, DoPublish(s, token);
            && e in s.requests && Published(t, e)
            && var j := s.requests[e].job;
               && (j in t.db.jobs <==> j in s.db.jobs)
               && (j in s.db.jobs ==>
                     t.db.jobs[j] == if s.db.jobs[j].state == Queued || s.db.jobs[j].state == Failed
                                     then Job(s.db.jobs[j].key, Processing, s.db.jobs[j].attempts + 1) else s.db.jobs[j])
  {
    var c := Head(s, token);
    assert DispatcherOk(token, s.dispatchers[token], s.db.outbox, s.sent);
    assert ClaimCurrent(token, c, s.db.outbox);
    Effects.PublishIsWritten(s.db, c.id, token, c.row.payload.data);
  }

  lemma MarkedBy(s: System, token: Uuid, e: Uuid)
    requires OutboxValid(s.db.outbox, s.requests) && DispatchersOk(s.dispatchers, s.db.outbox, s.sent)
    requires Busy(s, token, Delivered) && Head(s, token).id == e
    requires Published(DoPublish(s, token), e) && !Published(s, e)
    ensures e in s.requests
    ensures var j, t := s.requests[e].job, DoPublish(s, token);
            j in s.db.jobs && s.db.jobs[j].state == Queued ==> j in t.db.jobs && t.db.jobs[j].state == Processing
  {
    var c := Head(s, token);
    Effects.PublishIsWritten(s.db, c.id, token, c.row.payload.data);
    PublishMarks(s, token);
  }

  /** The scrape job of a request without a result: queued, or being worked on. */
  lemma OpenJob(s: System, e: Uuid)
    requires RowsOk(s) && TerminalReceived(s.db.jobs, s.eventOf, s.db.inbox)
    requires forall j :: j in s.db.jobs ==> s.db.jobs[j].state != Cancelled
    requires e in s.requests && e !in s.db.inbox && s.requests[e].document in s.db.documents
    ensures var j := s.requests[e].job; j in s.db.jobs && s.db.jobs[j].state in {Queued, Processing}
  {
    var k := JobKey(s.requests[e].document, s.requests[e].version, Scrape);
    assert k in s.db.jobIndex && s.db.jobIndex[k] == s.requests[e].job;
  }

  lemma ClaimedIsWritten(s: System, token: Uuid)
    requires OutboxValid(s.db.outbox, s.requests) && DispatchersOk(s.dispatchers, s.db.outbox, s.sent)
    requires Busy(s, token, Delivered)
    ensures Head(s, token).id in s.requests
  {
    assert DispatcherOk(token, s.dispatchers[token], s.db.outbox, s.sent);
    assert ClaimCurrent(token, Head(s, token), s.db.outbox);
  }

  /** What the events of a state need of the invariant. */
  ghost predicate EventsKnown(s: System) {
    && RowsKnown(s) && TerminalReceived(s.db.jobs, s.eventOf, s.db.inbox)
    && DispatchersOk(s.dispatchers, s.db.outbox, s.sent)
    && forall j :: j in s.db.jobs ==> s.db.jobs[j].state != Cancelled
  }

  /** The result of the event is still to come, and its document is there. */
  ghost predicate Awaited(s: System, e: Uuid) {
    e in s.requests && e !in s.db.inbox && s.requests[e].document in s.db.documents
  }

  ghost predicate InState(s: System, e: Uuid, state: JobState) {
    e in s.requests && s.requests[e].job in s.db.jobs && s.db.jobs[s.requests[e].job].state == state
  }

  /** What a step does to the scrape job of an event whose result is still to come. */
  ghost predicate KeepsEvent(s: System, t: System, e: Uuid) {
    Published(t, e) && Awaited(t, e) ==>
      && Awaited(s, e) && (Published(s, e) && InState(s, e, Processing) ==> InState(t, e, Processing))
      && (!Published(s, e) ==> InState(t, e, Processing))
  }

  lemma AwaitedBefore(s: System, t: System, e: Uuid)
    requires RowsOk(s) && Moves(s, t) && e in s.requests && Awaited(t, e)
    ensures Awaited(s, e) && t.requests[e] == s.requests[e]
  {
  }

  lemma StepKeepsEvent(s: System, step: Step, t: System, e: Uuid)
    requires EventsKnown(s) && EventsKnown(t) && Next(s, step, t) && Moves(s, t)
    ensures KeepsEvent(s, t, e)
  {
    if Published(t, e) && Awaited(t, e) {
      PublishedWasWritten(s, step, t, e);
      AwaitedBefore(s, t, e);
      OpenJob(s, e);
      OpenJob(t, e);
      StaysProcessing(s, t, e);
      if !Published(s, e) && InState(s, e, Queued) {
        MarkedNow(s, step, t, e);
      }
    }
  }

  lemma StaysProcessing(s: System, t: System, e: Uuid)
    requires JobsMove(s.used, s.db.jobs, t.db.jobs) && s.db.jobs.Keys <= s.used
    requires e in s.requests && e in t.requests && t.requests[e] == s.requests[e]
    requires s.requests[e].job in t.db.jobs && t.db.jobs[s.requests[e].job].state in {Queued, Processing}
    ensures InState(s, e, Processing) ==> InState(t, e, Processing)
  {
    if InState(s, e, Processing) {
      assert JobMoves(s.db.jobs[s.requests[e].job], t.db.jobs[s.requests[e].job]);
    }
  }

  lemma PublishedWasWritten(s: System, step: Step, t: System, e: Uuid)
    requires EventsKnown(s) && Next(s, step, t) && Published(t, e)
    ensures e in s.requests
  {
    if !Published(s, e) {
      PublishedBy(s, step, t, e);
      ClaimedIsWritten(s, step.token);
    }
  }

  lemma MarkedNow(s: System, step: Step, t: System, e: Uuid)
    requires RowsKnown(s) && DispatchersOk(s.dispatchers, s.db.outbox, s.sent)
    requires Next(s, step, t) && Published(t, e) && !Published(s, e)
    requires e in s.requests && e in t.requests && t.requests[e] == s.requests[e] && InState(s, e, Queued)
    ensures InState(t, e, Processing)
  {
    PublishedBy(s, step, t, e);
    MarkedBy(s, step.token, e);
  }

  lemma EventsKnownAt(states: seq<System>, steps: seq<Step>, n: nat)
    requires IsRun(states, steps) && n < |states|
    ensures EventsKnown(states[n])
  {
    RunKeeps(states, steps, n);
  }

  lemma KeepsEventAt(states: seq<System>, steps: seq<Step>, n: nat, e: Uuid)
    requires IsRun(states, steps) && n < |steps|
    ensures KeepsEvent(states[n], states[n + 1], e)
  {
    EventsKnownAt(states, steps, n);
    EventsKnownAt(states, steps, n + 1);
    RunStep(states, steps, n);
    StepMoves(states, steps, n);
    StepKeepsEvent(states[n], steps[n], states[n + 1], e);
  }

  lemma {:induction false} PublishedIn(states: seq<System>, n: nat, e: Uuid)
    requires n < |states| && !Published(states[0], e)
    requires forall i {:trigger states[i]} :: 0 <= i < |states| - 1 ==> KeepsEvent(states[i], states[i + 1], e)
    ensures Published(states[n], e) && Awaited(states[n], e) ==> InState(states[n], e, Processing)
    decreases n
  {
    if n > 0 {
      PublishedIn(states, n - 1, e);
      assert KeepsEvent(states[n - 1], states[n], e);
    }
  }

  /** In every state of every run: while the result of a published event is not in the inbox, and its document is
      there, its scrape job is PROCESSING. */
  lemma PublishedIsProcessing(states: seq<System>, steps: seq<Step>, n: nat, e: Uuid)
    requires IsRun(states, steps) && n < |states| && Published(states[n], e) && e !in states[n].db.inbox
    requires e in states[n].requests && states[n].requests[e].document in states[n].db.documents
    ensures var s := states[n];
            var j := s.requests[e].job; j in s.db.jobs && s.db.jobs[j].state == Processing
  {
    forall i | 0 <= i < |states| - 1 ensures KeepsEvent(states[i], states[i + 1], e) {
      KeepsEventAt(states, steps, i, e);
    }
    PublishedIn(states, n, e);
  }
}
