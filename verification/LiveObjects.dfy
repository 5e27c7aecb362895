/** When the object of an uploaded file is there: it is deleted while its document is live if and only if
    the transaction of its upload has committed without an answer and the upload has deleted its objects
    again. No cleanup takes it. */
module LiveObjects {
  import opened Schema
  import opened Transactions
  import opened Protocol
  import opened Invariants
  import opened Runs
  import opened Progress
  import opened Objects
  import ProofsApi
  import ProofsConsume

  predicate IsFile(kind: DocumentKind) { kind in {Image, File} }

  /** An upload has its own key, and an identifier that nothing else has used before it commits. */
  ghost predicate UploadsOk(files: Files, used: set<Uuid>) {
    && (forall d :: d in files.uploads ==>
          && files.uploads[d].key != "" && files.uploads[d].key in files.owners && files.owners[files.uploads[d].key] == d
          && (files.uploads[d].open ==> d !in used))
    && (forall key :: key in files.owners ==> files.owners[key] in files.uploads)
    && files.deleted <= files.owners.Keys
  }

  /** A file names the object of its upload, and a memo none. */
  ghost predicate RowOk(files: Files, k: VersionKey, kind: DocumentKind, version: Version) {
    && (IsFile(kind) ==>
          && k.document in files.uploads && !files.uploads[k.document].open
          && version.rawKey == files.uploads[k.document].key && version.contentKey == "")
    && (kind == Memo ==> version.rawKey == "" && version.contentKey == "")
  }

  ghost predicate FilesNamed(files: Files, documents: map<Uuid, Document>, versions: map<VersionKey, Version>) {
    forall k :: k in versions && k.document in documents ==> RowOk(files, k, documents[k.document].kind, versions[k])
  }

  /** The cleanup loop has no live document in hand, and no file of another document on its list. */
  ghost predicate CleanerSpares(cleaner: Cleaner, files: Files, used: set<Uuid>, db: Db) {
    && (forall i :: 0 <= i < |cleaner.batch| ==> cleaner.batch[i] in used && !db.Live(cleaner.batch[i]))
    && (cleaner.batch != [] && cleaner.stage.Deleting? ==>
          forall target :: target in cleaner.stage.todo && target.bucket.DocumentBucket? ==>
            target.key in files.owners && files.owners[target.key] == cleaner.batch[0])
  }

  ghost predicate FilesOk(s: System) {
    && UploadsOk(s.files, s.used) && FilesNamed(s.files, s.db.documents, s.db.versions)
    && CleanerSpares(s.cleaner, s.files, s.used, s.db)
  }

  // ----- what a step does to the uploads -----

  /** An upload keeps its key and its error, and once it is closed it stays as it is. */
  ghost predicate UploadsMove(files: Files, after: Files) {
    && (forall d :: d in files.uploads ==>
          && d in after.uploads && after.uploads[d].key == files.uploads[d].key
          && (files.uploads[d].failed ==> after.uploads[d].failed)
          && (!files.uploads[d].open ==> after.uploads[d] == files.uploads[d]))
    && (forall key :: key in files.owners ==> key in after.owners && after.owners[key] == files.owners[key])
    && files.deleted <= after.deleted
  }

  ghost predicate Commits(step: Step, d: Uuid) { step.Api? && step.api.NewFile? && step.api.file.document == d }

  /** Identifiers come into use fresh, and that of an upload by its own transaction. */
  ghost predicate UsedByOwn(s: System, step: Step, t: System) {
    && s.used <= t.used
    && forall d :: d in t.used && d !in s.used && d in s.files.uploads ==> Commits(step, d)
  }

  lemma PlanUses(s: System, step: ApiStep, t: System)
    requires RowsOk(s) && ProofsApi.Begins(step) && ApiNext(s, step, t)
    ensures UsedByOwn(s, Api(step), t)
  {
    ProofsApi.PlanNext(s, step, t);
    if ProofsApi.PlanOf(s.db, step).Some? {
      PlanIds(s, step);
      BeginUses(s, ProofsApi.PlanOf(s.db, step).value);
    }
  }

  /** A plan for a document that exists names no new one. */
  lemma PlanIds(s: System, step: ApiStep)
    requires (exists t :: ApiNext(s, step, t)) && ProofsApi.PlanOf(s.db, step).Some?
    ensures var n := ProofsApi.PlanOf(s.db, step).value;
            && n.job !in s.files.uploads && (n.Kind() == Scrape ==> n.event !in s.files.uploads)
            && (n.d in s.files.uploads ==> n.d in s.db.documents || Commits(Api(step), n.d))
  {
    FreshIds(s, step);
  }

  lemma BeginUses(s: System, n: NewVersion)
    requires RowsOk(s) && ProofsApi.CanBegin(s, n)
    ensures var used := DoBegin(s, Some(n)).used;
            s.used <= used && used <= s.used + ({n.d, n.job} + if n.Kind() == Enrich then {} else {n.event})
  {
    ProofsApi.BeginUnmet(s, n);
    ProofsApi.BeginShape(s, n);
  }

  /** The identifiers that a request generates are not those of uploads. */
  lemma FreshIds(s: System, step: ApiStep)
    requires exists t :: ApiNext(s, step, t)
    ensures step.NewMemo? ==> step.document !in s.files.uploads && step.job !in s.files.uploads
    ensures step.EditMemo? ==> step.job !in s.files.uploads
    ensures step.NewWebpage? ==>
              step.document !in s.files.uploads && step.job !in s.files.uploads && step.event !in s.files.uploads
    ensures step.RefreshWebpage? ==> step.job !in s.files.uploads && step.event !in s.files.uploads
    ensures step.NewFile? ==> step.file.job !in s.files.uploads
    ensures step.NewAccount? ==> step.account !in s.files.uploads
    ensures step.PutFile? ==> step.document !in s.files.uploads && step.document !in s.used
  {
    match step
    case NewAccount(a) => assert [a][0] == a;
    case NewMemo(_, d, job, _) => assert [d, job][0] == d && [d, job][1] == job;
    case EditMemo(_, _, job, _) => assert [job][0] == job;
    case NewWebpage(_, d, job, event, _) =>
      assert [d, job, event][0] == d && [d, job, event][1] == job && [d, job, event][2] == event;
    case RefreshWebpage(_, _, job, event, _) => assert [job, event][0] == job && [job, event][1] == event;
    case PutFile(d, _) => assert [d][0] == d;
    case NewFile(_, file, _) => assert [file.job][0] == file.job;
    case _ =>
  }

  lemma ApiUses(s: System, step: ApiStep, t: System)
    requires RowsOk(s) && ApiNext(s, step, t)
    ensures UsedByOwn(s, Api(step), t)
  {
    if ProofsApi.Begins(step) {
      PlanUses(s, step, t);
    } else if step.Remove? || step.Leave? {
      ProofsApi.RemovalLeaves(s, step, t);
    } else {
      FreshIds(s, step);
    }
  }

  lemma DispatchUses(s: System, token: Uuid, step: DispatchStep, t: System)
    requires DispatchNext(s, token, step, t)
    ensures UsedByOwn(s, Dispatch(token, step), t) && t.files == s.files
  {
    assert [token][0] == token;
  }

  lemma CommitUses(s: System, job: Uuid)
    requires s.consumer.HasDocument? && job !in s.files.uploads
    ensures var t := DoCommit(s, job); t.used <= s.used + {job} && s.used <= t.used && t.files == s.files
  {
  }

  lemma ConsumeUses(s: System, step: ConsumeStep, t: System)
    requires ConsumeNext(s, step, t)
    ensures UsedByOwn(s, Consume(step), t) && t.files == s.files
  {
    if step.Commit? {
      assert [step.job][0] == step.job;
      CommitUses(s, step.job);
    }
  }

  lemma EnrichUses(s: System, step: EnrichStep, t: System)
    requires EnrichNext(s, step, t)
    ensures t.used == s.used && t.files == s.files
  {
  }

  lemma CleaningUses(s: System, step: CleanStep, t: System)
    requires CleanNext(s, step, t)
    ensures t.used == s.used && UploadsMove(s.files, t.files)
  {
  }

  lemma OthersUse(s: System, step: Step, t: System)
    requires Next(s, step, t) && !step.Api?
    ensures UsedByOwn(s, step, t) && UploadsMove(s.files, t.files) && (!step.Cleaning? ==> t.files == s.files)
  {
    match step
    case Dispatch(token, dispatch) => DispatchUses(s, token, dispatch, t);
    case Consume(consume) => ConsumeUses(s, consume, t);
    case Enriching(enrich) => EnrichUses(s, enrich, t);
    case Cleaning(clean) => CleaningUses(s, clean, t);
    case _ =>
  }

  lemma UploadFilesMove(s: System, step: ApiStep, t: System)
    requires ApiNext(s, step, t) && (step.PutFile? || step.FailUpload? || step.Compensate?)
    ensures UploadsMove(s.files, t.files)
  {
    FreshIds(s, step);
  }

  lemma NewFileMoves(s: System, owner: Uuid, file: Upload, answered: bool)
    requires CanPersist(s, file, answered)
    ensures UploadsMove(s.files, DoNewFile(s, owner, file, answered).files)
  {
  }

  lemma ApiFilesMove(s: System, step: ApiStep, t: System)
    requires ApiNext(s, step, t)
    ensures UploadsMove(s.files, t.files)
  {
    if step.NewFile? {
      NewFileMoves(s, step.owner, step.file, step.answered);
    } else if ProofsApi.Begins(step) {
      ProofsApi.BeginLeaves(s, ProofsApi.PlanOf(s.db, step));
    } else if step.Remove? || step.Leave? {
      ProofsApi.RemovalLeaves(s, step, t);
    } else if !step.NewAccount? {
      UploadFilesMove(s, step, t);
    }
  }

  lemma StepUses(s: System, step: Step, t: System)
    requires RowsOk(s) && Next(s, step, t)
    ensures UsedByOwn(s, step, t) && UploadsMove(s.files, t.files)
  {
    if step.Api? {
      ApiUses(s, step.api, t);
      ApiFilesMove(s, step.api, t);
    } else {
      OthersUse(s, step, t);
    }
  }

  // ----- rows and the cleanup loop -----

  lemma PutOk(s: System, d: Uuid, key: string)
    requires FilesOk(s) && d !in s.files.uploads && d !in s.used && key != "" && key !in s.files.owners
    ensures FilesOk(DoPutFile(s, d, key))
  {
  }

  lemma FailOk(s: System, d: Uuid, sent: bool)
    requires FilesOk(s) && d in s.files.uploads && s.files.uploads[d].open
    ensures FilesOk(DoFailUpload(s, d, sent))
  {
  }

  lemma CompensateOk(s: System, d: Uuid, reached: bool)
    requires FilesOk(s) && d in s.files.uploads
    ensures FilesOk(DoCompensate(s, d, reached))
  {
  }

  /** Rows that are not new keep their keys; files and uploads that are closed stay as they are. */
  lemma NamedKept(s: System, t: System, changed: set<VersionKey>)
    requires FilesNamed(s.files, s.db.documents, s.db.versions) && KeysKept(s, t, changed) && UploadsMove(s.files, t.files)
    requires forall k :: k in changed && k in t.db.versions && k.document in t.db.documents ==>
               RowOk(t.files, k, t.db.documents[k.document].kind, t.db.versions[k])
    ensures FilesNamed(t.files, t.db.documents, t.db.versions)
  {
    forall k | k in t.db.versions && k.document in t.db.documents && k !in changed
      ensures RowOk(t.files, k, t.db.documents[k.document].kind, t.db.versions[k])
    {
      assert SameKeys(s, t, k);
      assert RowOk(s.files, k, s.db.documents[k.document].kind, s.db.versions[k]);
    }
  }

  lemma SparesKept(s: System, t: System)
    requires CleanerSpares(s.cleaner, s.files, s.used, s.db) && t.cleaner == s.cleaner && UploadsMove(s.files, t.files)
    requires DocumentsMove(s, t) && s.used <= t.used
    ensures CleanerSpares(t.cleaner, t.files, t.used, t.db)
  {
    forall i | 0 <= i < |s.cleaner.batch| ensures !t.db.Live(s.cleaner.batch[i]) {
      var d := s.cleaner.batch[i];
      if d in t.db.documents {
        assert DocumentMoves(s.db.documents[d], t.db.documents[d]);
      }
    }
  }

  /** No upload is touched, and no identifier of one comes into use. */
  lemma KeptOk(s: System, t: System, changed: set<VersionKey>)
    requires FilesOk(s) && KeysKept(s, t, changed) && DocumentsMove(s, t) && t.files == s.files && t.cleaner == s.cleaner
    requires s.used <= t.used && forall d :: d in t.used && d !in s.used ==> d !in s.files.uploads
    requires forall k :: k in changed && k in t.db.versions && k.document in t.db.documents ==>
               RowOk(s.files, k, t.db.documents[k.document].kind, t.db.versions[k])
    ensures FilesOk(t)
  {
    NamedKept(s, t, changed);
    SparesKept(s, t);
  }

  /** What a request writes when it creates a version. */
  lemma BegunRow(s: System, step: ApiStep, t: System)
    requires RowsOk(s) && ProofsApi.Begins(step) && ApiNext(s, step, t) && !step.NewFile?
    requires ProofsApi.PlanOf(s.db, step).Some?
    ensures var n := ProofsApi.PlanOf(s.db, step).value;
            t.files == s.files
            && (n.Key() in t.db.versions && n.d in t.db.documents ==>
                  RowOk(t.files, n.Key(), t.db.documents[n.d].kind, t.db.versions[n.Key()]))
  {
    var n := ProofsApi.PlanOf(s.db, step).value;
    ProofsApi.PlanNext(s, step, t);
    ProofsApi.BeginUnmet(s, n);
    ProofsApi.BeginShape(s, n);
    if !step.NewWebpage? && !step.RefreshWebpage? {
      assert n.document.kind == Memo && n.version.rawKey == "" && n.version.contentKey == "";
    }
  }

  lemma BegunOk(s: System, step: ApiStep, t: System)
    requires RowsOk(s) && FilesOk(s) && ProofsApi.Begins(step) && ApiNext(s, step, t) && !step.NewFile?
    requires DocumentsMove(s, t)
    ensures FilesOk(t)
  {
    BegunTracked(s, step, t);
    ApiUses(s, step, t);
    KeptOk(s, t, Changed(s, Api(step)));
  }

  lemma BegunTracked(s: System, step: ApiStep, t: System)
    requires RowsOk(s) && ProofsApi.Begins(step) && ApiNext(s, step, t) && !step.NewFile?
    ensures KeysKept(s, t, Changed(s, Api(step))) && t.files == s.files && t.cleaner == s.cleaner
    ensures forall k :: k in Changed(s, Api(step)) && k in t.db.versions && k.document in t.db.documents ==>
              RowOk(s.files, k, t.db.documents[k.document].kind, t.db.versions[k])
  {
    ApiTracked(s, step, t);
    if ProofsApi.PlanOf(s.db, step).Some? {
      BegunRow(s, step, t);
    }
  }

  /** The transaction of an upload: the upload is closed. */
  lemma FileUpload(s: System, owner: Uuid, file: Upload, answered: bool)
    requires RowsOk(s) && UploadsOk(s.files, s.used) && CanPersist(s, file, answered)
    ensures var t := DoNewFile(s, owner, file, answered); UploadsOk(t.files, t.used)
  {
    ApiUses(s, NewFile(owner, file, answered), DoNewFile(s, owner, file, answered));
  }

  /** And its row names the object. */
  lemma FileRow(s: System, owner: Uuid, file: Upload, answered: bool)
    requires RowsOk(s) && UploadsOk(s.files, s.used) && CanPersist(s, file, answered)
    ensures var t, k := DoNewFile(s, owner, file, answered), VersionKey(file.document, 1);
            && (k in t.db.versions && k.document in t.db.documents ==>
                  RowOk(t.files, k, t.db.documents[k.document].kind, t.db.versions[k]))
            && (PersistFile(s.db, owner, file).Some? ==> PersistFile(s.db, owner, file).value.Key() == k)
  {
    ProofsApi.UploadBegins(s, owner, file, answered);
    if PersistFile(s.db, owner, file).Some? {
      ProofsApi.BeginUnmet(s, PersistFile(s.db, owner, file).value);
      ProofsApi.BeginShape(s, PersistFile(s.db, owner, file).value);
    } else {
      assert VersionKey(file.document, 1) in s.db.versions ==> file.document in s.db.documents;
    }
  }

  lemma FileOk(s: System, owner: Uuid, file: Upload, answered: bool)
    requires RowsOk(s) && FilesOk(s) && CanPersist(s, file, answered)
    requires DocumentsMove(s, DoNewFile(s, owner, file, answered))
    ensures FilesOk(DoNewFile(s, owner, file, answered))
  {
    var t, step := DoNewFile(s, owner, file, answered), NewFile(owner, file, answered);
    ApiTracked(s, step, t);
    ApiUses(s, step, t);
    ApiFilesMove(s, step, t);
    FileUpload(s, owner, file, answered);
    FileRow(s, owner, file, answered);
    NamedKept(s, t, Changed(s, Api(step)));
    SparesKept(s, t);
  }

  lemma ApiOk(s: System, step: ApiStep, t: System)
    requires RowsOk(s) && FilesOk(s) && ApiNext(s, step, t) && DocumentsMove(s, t)
    ensures FilesOk(t)
  {
    match step
    case PutFile(d, key) =>
      FreshIds(s, step);
      PutOk(s, d, key);
    case FailUpload(d, sent) => FailOk(s, d, sent);
    case Compensate(d, reached) => CompensateOk(s, d, reached);
    case NewFile(owner, file, answered) => FileOk(s, owner, file, answered);
    case _ =>
      if ProofsApi.Begins(step) {
        BegunOk(s, step, t);
      } else {
        AccountOk(s, step, t);
      }
  }

  lemma AccountOk(s: System, step: ApiStep, t: System)
    requires RowsOk(s) && FilesOk(s) && ApiNext(s, step, t) && DocumentsMove(s, t)
    requires step.NewAccount? || step.Remove? || step.Leave?
    ensures FilesOk(t)
  {
    ApiTracked(s, step, t);
    ApiUses(s, step, t);
    if !step.NewAccount? {
      ProofsApi.RemovalLeaves(s, step, t);
    }
    KeptOk(s, t, {});
  }

  lemma ListedFiles(s: System)
    requires FilesOk(s) && CleanerBusy(s)
    ensures CleanerSpares(DoList(s).cleaner, s.files, s.used, s.db)
  {
    var d := s.cleaner.batch[0];
    forall target | target in ObjectsOf(s.db.documents, s.db.versions, d) && target.bucket.DocumentBucket?
      ensures target.key in s.files.owners && s.files.owners[target.key] == d
    {
      var k :| k in s.db.versions && k.document == d && target.key in KeysOf(s.db.versions[k]);
      assert RowOk(s.files, k, s.db.documents[d].kind, s.db.versions[k]);
    }
  }

  lemma CleanOk(s: System, step: CleanStep, t: System)
    requires RowsOk(s) && FilesOk(s) && CleanNext(s, step, t)
    ensures FilesOk(t)
  {
    CleaningKeepsRows(s, step, t);
    match step
    case List => ListedFiles(s);
    case _ =>
  }

  /** A result writes the row of a webpage. */
  lemma ResultRow(s: System, step: ConsumeStep)
    requires ResultsKnown(s)
    ensures forall k :: k in ChangedByConsumer(s, step) ==>
              k.document in s.db.documents && s.db.documents[k.document].kind == Webpage
  {
    if step.Commit? && ProofsConsume.Applying(s, step.job) {
      ProofsConsume.ApplyingRequested(s, step.job);
      ProofsConsume.NotYetApplied(s, s.consumer.m.eventId);
    }
  }

  lemma OtherTracked(s: System, step: Step, t: System)
    requires ResultsKnown(s) && Next(s, step, t) && !step.Api? && !step.Cleaning? && !step.Scraper?
    ensures Tracked(s, t, Changed(s, step)) && UsedByOwn(s, step, t) && t.files == s.files
  {
    StepIsTracked(s, step, t);
    OthersUse(s, step, t);
  }

  lemma OtherOk(s: System, step: Step, t: System)
    requires Tracked(s, t, Changed(s, step)) && UsedByOwn(s, step, t) && t.files == s.files
    requires ResultsKnown(s) && FilesOk(s) && DocumentsMove(s, t) && s.db.documents.Keys <= s.used && !step.Api?
    ensures FilesOk(t)
  {
    ChangedIsPage(s, step, t);
    PagesOk(s, t, Changed(s, step));
  }

  /** The row of a webpage may name any object. */
  lemma PagesOk(s: System, t: System, changed: set<VersionKey>)
    requires FilesOk(s) && KeysKept(s, t, changed) && DocumentsMove(s, t) && t.files == s.files && t.cleaner == s.cleaner
    requires s.used <= t.used && forall d :: d in t.used && d !in s.used ==> d !in s.files.uploads
    requires forall k :: k in changed && k.document in t.db.documents ==> t.db.documents[k.document].kind == Webpage
    ensures FilesOk(t)
  {
    KeptOk(s, t, changed);
  }

  lemma ChangedIsPage(s: System, step: Step, t: System)
    requires ResultsKnown(s) && !step.Api? && DocumentsMove(s, t) && s.db.documents.Keys <= s.used
    ensures forall k :: k in Changed(s, step) && k.document in t.db.documents ==> t.db.documents[k.document].kind == Webpage
  {
    if step.Consume? {
      ResultRow(s, step.consume);
    }
    forall k | k in Changed(s, step) && k.document in t.db.documents ensures t.db.documents[k.document].kind == Webpage {
      assert k.document in s.db.documents;
      assert DocumentMoves(s.db.documents[k.document], t.db.documents[k.document]);
    }
  }

  lemma FilesNext(s: System, step: Step, t: System)
    requires ResultsKnown(s) && FilesOk(s) && Next(s, step, t)
    requires DocumentsMove(s, t) && s.db.documents.Keys <= s.used
    ensures FilesOk(t)
  {
    match step
    case Api(api) => ApiOk(s, api, t);
    case Cleaning(clean) => CleanOk(s, clean, t);
    case _ => OtherNext(s, step, t);
  }

  lemma OtherNext(s: System, step: Step, t: System)
    requires ResultsKnown(s) && FilesOk(s) && DocumentsMove(s, t) && s.db.documents.Keys <= s.used
    requires Next(s, step, t) && !step.Api? && !step.Cleaning?
    ensures FilesOk(t)
  {
    if !step.Scraper? {
      OtherTracked(s, step, t);
      OtherOk(s, step, t);
    }
  }

  // ----- what deletes a file -----

  /** The file of a live document, or one whose transaction has not committed. */
  ghost predicate Intact(s: System, d: Uuid) { d in s.files.uploads && (d in s.used ==> s.db.Live(d)) }

  /** A step deletes the object of such a file only as the clean-up of its own upload. */
  lemma DeletedByOwn(s: System, step: Step, t: System, d: Uuid)
    requires FilesOk(s) && Intact(s, d) && Next(s, step, t)
    ensures var key := s.files.uploads[d].key;
            key in t.files.deleted <==> key in s.files.deleted || step == Api(Compensate(d, true))
  {
    if step.Api? {
      ApiDeletes(s, step.api, t, d);
    } else if step.Cleaning? {
      CleaningSpares(s, step.clean, t, d);
    } else {
      OthersUse(s, step, t);
    }
  }

  lemma ApiDeletes(s: System, step: ApiStep, t: System, d: Uuid)
    requires UploadsOk(s.files, s.used) && d in s.files.uploads && ApiNext(s, step, t)
    ensures var key := s.files.uploads[d].key;
            key in t.files.deleted <==> key in s.files.deleted || step == Compensate(d, true)
  {
    if ProofsApi.Begins(step) {
      ProofsApi.BeginLeaves(s, ProofsApi.PlanOf(s.db, step));
    } else if step.Remove? || step.Leave? {
      ProofsApi.RemovalLeaves(s, step, t);
    }
  }

  lemma CleaningSpares(s: System, step: CleanStep, t: System, d: Uuid)
    requires FilesOk(s) && Intact(s, d) && CleanNext(s, step, t)
    ensures var key := s.files.uploads[d].key; key in t.files.deleted <==> key in s.files.deleted
  {
  }

  // ----- every run -----

  lemma FilesStep(states: seq<System>, steps: seq<Step>, n: nat)
    requires IsRun(states, steps) && n < |steps| && FilesOk(states[n])
    ensures FilesOk(states[n + 1])
  {
    RunKeeps(states, steps, n);
    RunStep(states, steps, n);
    StepMoves(states, steps, n);
    FilesNext(states[n], steps[n], states[n + 1]);
  }

  lemma {:induction false} FilesAt(states: seq<System>, steps: seq<Step>, n: nat)
    requires IsRun(states, steps) && n < |states|
    ensures FilesOk(states[n])
    decreases n
  {
    if n > 0 {
      FilesAt(states, steps, n - 1);
      FilesStep(states, steps, n - 1);
    }
  }

  /** Step i commits the upload of d, and nobody is answered. */
  ghost predicate LostAt(states: seq<System>, steps: seq<Step>, i: nat, d: Uuid)
    requires i < |steps| < |states|
  {
    Commits(steps[i], d) && !steps[i].api.answered && d !in states[i].used && d in states[i + 1].used
  }

  ghost predicate Lost(states: seq<System>, steps: seq<Step>, n: nat, d: Uuid)
    requires n <= |steps| < |states|
  {
    exists i: nat :: i < n && LostAt(states, steps, i, d)
  }

  /** One of the first n steps deletes the object of d again. */
  ghost predicate Compensated(steps: seq<Step>, n: nat, d: Uuid)
    requires n <= |steps|
  {
    exists j: nat :: j < n && steps[j] == Api(Compensate(d, true))
  }

  /** What a step does to the upload of d, whatever step it is. */
  ghost predicate Followed(s: System, step: Step, t: System, d: Uuid) {
    && (d in s.used ==> d in t.used)
    && (if d in s.files.uploads then Goes(s, step, t, d) else d in t.files.uploads ==> Starts(t, d))
    && (step == Api(Compensate(d, true)) ==> d in s.files.uploads && s.files.uploads[d].failed)
  }

  ghost predicate Starts(t: System, d: Uuid)
    requires d in t.files.uploads
  {
    d !in t.used && t.files.uploads[d].key !in t.files.deleted
  }

  ghost predicate Goes(s: System, step: Step, t: System, d: Uuid)
    requires d in s.files.uploads
  {
    var upload := s.files.uploads[d];
    && d in t.files.uploads && t.files.uploads[d].key == upload.key
    && (upload.failed ==> t.files.uploads[d].failed) && (d in s.used ==> t.files.uploads[d] == upload)
    && (d !in s.used && d in t.used ==> Commits(step, d) && (t.files.uploads[d].failed <==> !step.api.answered))
    && (Intact(t, d) ==> Intact(s, d))
    && (Intact(s, d) ==>
          (upload.key in t.files.deleted <==> upload.key in s.files.deleted || step == Api(Compensate(d, true))))
  }

  lemma StepIsFollowed(s: System, step: Step, t: System, d: Uuid)
    requires RowsOk(s) && FilesOk(s) && Next(s, step, t) && DocumentsMove(s, t)
    ensures Followed(s, step, t, d)
  {
    StepUses(s, step, t);
    if d !in s.files.uploads {
      if d in t.files.uploads {
        PutBy(s, step, t, d);
        FreshIds(s, step.api);
      }
    } else {
      StepGoes(s, step, t, d);
    }
  }

  lemma StepGoes(s: System, step: Step, t: System, d: Uuid)
    requires FilesOk(s) && Next(s, step, t) && DocumentsMove(s, t) && d in s.files.uploads
    requires UsedByOwn(s, step, t) && UploadsMove(s.files, t.files)
    ensures Goes(s, step, t, d)
  {
    if d in s.used && d in s.db.documents && d in t.db.documents {
      assert DocumentMoves(s.db.documents[d], t.db.documents[d]);
    }
    if Intact(s, d) {
      DeletedByOwn(s, step, t, d);
    }
    if d !in s.used && d in t.used {
      CommitsClosed(s, step.api, t);
    }
  }

  /** The commit of an upload leaves it with an error exactly if nobody is answered. */
  lemma CommitsClosed(s: System, step: ApiStep, t: System)
    requires step.NewFile? && ApiNext(s, step, t) && step.file.document in t.used
    ensures var d := step.file.document; d in t.files.uploads && (t.files.uploads[d].failed <==> !step.answered)
  {
  }

  /** Only the first step of an upload makes an identifier that of an upload. */
  lemma PutBy(s: System, step: Step, t: System, d: Uuid)
    requires Next(s, step, t) && d !in s.files.uploads && d in t.files.uploads
    ensures step.Api? && step.api.PutFile? && step.api.document == d
  {
    if step.Api? {
      ApiPutBy(s, step.api, t, d);
    } else if !step.Cleaning? {
      OthersUse(s, step, t);
    }
  }

  lemma ApiPutBy(s: System, step: ApiStep, t: System, d: Uuid)
    requires ApiNext(s, step, t) && d !in s.files.uploads && d in t.files.uploads
    ensures step.PutFile? && step.document == d
  {
    if ProofsApi.Begins(step) {
      ProofsApi.BeginLeaves(s, ProofsApi.PlanOf(s.db, step));
    } else if step.Remove? || step.Leave? {
      ProofsApi.RemovalLeaves(s, step, t);
    }
  }

  /** A run, as far as the upload of d is concerned. */
  ghost predicate FollowedRun(states: seq<System>, steps: seq<Step>, d: Uuid) {
    && |states| == |steps| + 1 && d !in states[0].files.uploads
    && forall i {:trigger steps[i]} :: 0 <= i < |steps| ==> Followed(states[i], steps[i], states[i + 1], d)
  }

  lemma FollowedAt(states: seq<System>, steps: seq<Step>, n: nat, d: Uuid)
    requires IsRun(states, steps) && n < |steps|
    ensures Followed(states[n], steps[n], states[n + 1], d)
  {
    RunKeeps(states, steps, n);
    RunStep(states, steps, n);
    StepMoves(states, steps, n);
    FilesAt(states, steps, n);
    StepIsFollowed(states[n], steps[n], states[n + 1], d);
  }

  lemma RunIsFollowed(states: seq<System>, steps: seq<Step>, d: Uuid)
    requires IsRun(states, steps)
    ensures FollowedRun(states, steps, d)
  {
    forall i | 0 <= i < |steps| ensures Followed(states[i], steps[i], states[i + 1], d) {
      FollowedAt(states, steps, i, d);
    }
  }

  lemma {:induction false} UploadStays(states: seq<System>, steps: seq<Step>, i: nat, n: nat, d: Uuid)
    requires FollowedRun(states, steps, d) && i <= n < |states|
    ensures d in states[i].used ==> d in states[n].used
    ensures d in states[i].files.uploads ==>
              && d in states[n].files.uploads
              && (states[i].files.uploads[d].failed ==> states[n].files.uploads[d].failed)
    decreases n
  {
    if i < n {
      UploadStays(states, steps, i, n - 1, d);
      assert Followed(states[n - 1], steps[n - 1], states[n], d);
    }
  }

  lemma CompensatedMore(steps: seq<Step>, n: nat, d: Uuid)
    requires n < |steps|
    ensures Compensated(steps, n + 1, d) <==> Compensated(steps, n, d) || steps[n] == Api(Compensate(d, true))
  {
  }

  /** An upload that has deleted its object had seen an error. */
  lemma CompensatedFailed(states: seq<System>, steps: seq<Step>, n: nat, d: Uuid)
    requires FollowedRun(states, steps, d) && n < |states| && Compensated(steps, n, d)
    ensures d in states[n].files.uploads && states[n].files.uploads[d].failed
  {
    var j: nat :| j < n && steps[j] == Api(Compensate(d, true));
    assert Followed(states[j], steps[j], states[j + 1], d);
    UploadStays(states, steps, j, n, d);
  }

  /** The object of such a file is deleted exactly when its upload has deleted it again. */
  lemma {:induction false} DeletedExactly(states: seq<System>, steps: seq<Step>, n: nat, d: Uuid)
    requires FollowedRun(states, steps, d) && n < |states| && Intact(states[n], d)
    ensures states[n].files.uploads[d].key in states[n].files.deleted <==> Compensated(steps, n, d)
    decreases n
  {
    if n > 0 {
      assert Followed(states[n - 1], steps[n - 1], states[n], d);
      CompensatedMore(steps, n - 1, d);
      if d in states[n - 1].files.uploads {
        DeletedExactly(states, steps, n - 1, d);
      } else if Compensated(steps, n - 1, d) {
        CompensatedFailed(states, steps, n - 1, d);
      }
    }
  }

  /** An upload that has committed has seen an error exactly if nobody was answered. */
  lemma {:induction false} FailedExactly(states: seq<System>, steps: seq<Step>, n: nat, d: Uuid)
    requires FollowedRun(states, steps, d) && n < |states| && d in states[n].files.uploads && d in states[n].used
    ensures states[n].files.uploads[d].failed <==> Lost(states, steps, n, d)
    decreases n
  {
    if n > 0 {
      assert Followed(states[n - 1], steps[n - 1], states[n], d);
      LostMore(states, steps, n - 1, d);
      if d in states[n - 1].used {
        FailedExactly(states, steps, n - 1, d);
      } else if Lost(states, steps, n - 1, d) {
        var i: nat :| i < n - 1 && LostAt(states, steps, i, d);
        UploadStays(states, steps, i + 1, n - 1, d);
      }
    }
  }

  lemma LostMore(states: seq<System>, steps: seq<Step>, n: nat, d: Uuid)
    requires n < |steps| < |states|
    ensures Lost(states, steps, n + 1, d) <==> Lost(states, steps, n, d) || LostAt(states, steps, n, d)
  {
  }

  /** The rows of the document name the object, and it alone, and those of no other file do. */
  ghost predicate OwnKey(db: Db, d: Uuid, key: string) {
    forall k :: k in db.versions && k.document in db.documents && IsFile(db.documents[k.document].kind) ==>
      if k.document == d then db.versions[k].rawKey == key && db.versions[k].contentKey == ""
      else db.versions[k].rawKey != key && db.versions[k].contentKey != key
  }

  /** In every state of every run, for a live file: its version row names the object of its upload and no
      other file has that object; and the object is deleted if and only if the transaction committed without
      an answer and the upload has deleted its objects again, before or after. */
  lemma FileGoneExactly(states: seq<System>, steps: seq<Step>, n: nat, d: Uuid)
    requires IsRun(states, steps) && n < |states| && states[n].db.Live(d) && IsFile(states[n].db.documents[d].kind)
    ensures var s := states[n];
            && d in s.files.uploads
            && var key := s.files.uploads[d].key;
               && OwnKey(s.db, d, key)
               && (key in s.files.deleted <==> Lost(states, steps, n, d) && Compensated(steps, n, d))
  {
    FilesAt(states, steps, n);
    RunKeeps(states, steps, n);
    FileNamed(states[n], d);
    RunIsFollowed(states, steps, d);
    DeletedExactly(states, steps, n, d);
    FailedExactly(states, steps, n, d);
    if Compensated(steps, n, d) {
      CompensatedFailed(states, steps, n, d);
    }
  }

  lemma FileNamed(s: System, d: Uuid)
    requires FilesOk(s) && VersionsExact(s.db.documents, s.db.versions) && s.db.documents.Keys <= s.used
    requires s.db.Live(d) && IsFile(s.db.documents[d].kind)
    ensures Intact(s, d) && d in s.used
    ensures OwnKey(s.db, d, s.files.uploads[d].key)
  {
    var first := VersionKey(d, 1);
    assert first in s.db.versions && RowOk(s.files, first, s.db.documents[d].kind, s.db.versions[first]);
    forall k | k in s.db.versions && k.document in s.db.documents && IsFile(s.db.documents[k.document].kind)
      ensures k.document in s.files.uploads && s.db.versions[k].rawKey == s.files.uploads[k.document].key
      ensures s.db.versions[k].contentKey == ""
    {
      assert RowOk(s.files, k, s.db.documents[k.document].kind, s.db.versions[k]);
    }
  }
}
