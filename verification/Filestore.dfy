/** The upload transaction of internal/filestore/service.go, once the files are in the bucket. */
module Filestore {
  import opened Schema
  import opened Storage
  import opened Tables
  import T = Transactions
  import Effects

  function Addition(files: seq<T.Upload>): nat {
    if files == [] then 0 else Addition(files[..|files| - 1]) + files[|files| - 1].size
  }

  ghost predicate Fits(db: Db, owner: Uuid, files: seq<T.Upload>) {
    && db.ActiveAccount(owner)
    && Total(LiveSizes(db.documents, owner)) + Addition(files) <= Limit(db.accounts[owner].role, db.accounts[owner].plan)
  }

  class Service {
    const db: Database

    constructor (db: Database)
      ensures this.db == db
    {
      this.db := db;
    }

    /** The version row, and then its artifact key. */
    method CreateFileVersion(key: VersionKey, file: T.Upload) returns (ok: bool)
      modifies db`versions
      ensures ok <==> key !in old(db.versions)
      ensures ok ==> db.versions == old(db.versions)[key := Version(file.key, "", file.content, "")]
    {
      ghost var before := db.versions;
      ok := db.CreateDocumentVersion(key, Version("", "", file.content, ""));
      if ok {
        var affected := db.CompleteDocumentVersion(key, Version(file.key, "", file.content, ""));
        assert db.versions == before[key := Version(file.key, "", file.content, "")];
      }
    }

    /** One file: its document, its version, the version's artifact key and its job. */
    method PersistFile(owner: Uuid, file: T.Upload) returns (ok: bool)
      requires file.kind in {Image, File} && db.Snapshot().ActiveAccount(owner)
      modifies db
      ensures var after := T.Begin(old(db.Snapshot()), T.PersistFile(old(db.Snapshot()), owner, file));
              && (ok <==> after.Some?)
              && (ok ==> db.Snapshot() == after.value && db.accounts == old(db.accounts))
    {
      var row := Document(owner, file.kind, "", file.content, "", EnrichPending, 1, file.size, false);
      ok := db.InsertDocument(file.document, row);
      if !ok { return; }
      ok := CreateFileVersion(VersionKey(file.document, 1), file);
      if !ok { return; }
      ok := db.CreateIngestionJob(file.job, JobKey(file.document, 1, Enrich));
    }

    method PersistAll(owner: Uuid, files: seq<T.Upload>) returns (ok: bool)
      requires forall file :: file in files ==> file.kind in {Image, File}
      requires db.Snapshot().ActiveAccount(owner)
      modifies db
      ensures var after := T.PersistFiles(old(db.Snapshot()), owner, files);
              && (ok <==> after.Some?)
              && (ok ==> db.Snapshot() == after.value)
    {
      ghost var before := db.Snapshot();
      ok := true;
      for i := 0 to |files|
        invariant T.PersistFiles(before, owner, files[..i]) == Some(db.Snapshot()) && db.accounts == before.accounts
      {
        OneMoreFile(before, owner, files, i);
        ok := PersistFile(owner, files[i]);
        if !ok {
          StopsThere(before, owner, files, i + 1);
          return;
        }
      }
      assert files[..|files|] == files;
      ok := true;
    }

    /** The account is locked, the quota checked, and then every file is recorded, or none is. */
    method Persist(owner: Uuid, files: seq<T.Upload>) returns (ok: bool)
      requires forall file :: file in files ==> file.kind in {Image, File}
      modifies db
      ensures var before := old(db.Snapshot());
              && (ok <==> Fits(before, owner, files) && T.PersistFiles(before, owner, files).Some?)
              && db.Snapshot() == if ok then T.PersistFiles(before, owner, files).value else before
    {
      var before := db.Snapshot();
      ok := db.LockActiveAccount(owner);
      if !ok { return; }
      var usage := GetStorageUsage(db.documents, owner);
      var addition := 0;
      for i := 0 to |files|
        invariant addition == Addition(files[..i])
      {
        assert files[..i + 1][..i] == files[..i];
        addition := addition + files[i].size;
      }
      assert files[..|files|] == files;
      if usage + addition > Limit(db.accounts[owner].role, db.accounts[owner].plan) { return false; }
      ok := PersistAll(owner, files);
      if !ok {
        db.Restore(before);
      }
    }
  }

  lemma OneMoreFile(db: Db, owner: Uuid, files: seq<T.Upload>, i: nat)
    requires i < |files| && T.PersistFiles(db, owner, files[..i]).Some?
    ensures var before := T.PersistFiles(db, owner, files[..i]).value;
            T.PersistFiles(db, owner, files[..i + 1]) == T.Begin(before, T.PersistFile(before, owner, files[i]))
  {
    assert files[..i + 1][..i] == files[..i];
  }

  /** A file that cannot be recorded stops the rest. */
  lemma {:induction false} StopsThere(db: Db, owner: Uuid, files: seq<T.Upload>, i: nat)
    requires i <= |files| && T.PersistFiles(db, owner, files[..i]).None?
    ensures T.PersistFiles(db, owner, files).None?
    decreases |files| - i
  {
    if i < |files| {
      NoneAfterNone(db, owner, files[..i + 1]);
      assert files[..i + 1][..i] == files[..i];
      StopsThere(db, owner, files, i + 1);
    } else {
      assert files[..i] == files;
    }
  }

  lemma NoneAfterNone(db: Db, owner: Uuid, files: seq<T.Upload>)
    requires files != []
    ensures T.PersistFiles(db, owner, files[..|files| - 1]).None? ==> T.PersistFiles(db, owner, files).None?
  {
  }

  /** An upload fits if the account is active, and the live sizes of its documents and the files together are
      at most the limit of its role and plan. */
  lemma FitsExactly(db: Db, owner: Uuid, files: seq<T.Upload>)
    ensures Fits(db, owner, files) <==>
            && owner in db.accounts && !db.accounts[owner].deleted
            && Total(LiveSizes(db.documents, owner)) + Addition(files) <=
               if db.accounts[owner].role == Admin then 1099511627776
               else if db.accounts[owner].plan == Plus then 10737418240 else 1073741824
  {
  }

  /** The document of a file, live, with the text and the size of the file, and its version with the key. */
  ghost predicate Recorded(t: Db, owner: Uuid, file: T.Upload) {
    && file.document in t.documents && VersionKey(file.document, 1) in t.versions
    && JobKey(file.document, 1, Enrich) in t.jobIndex
    && t.documents[file.document] == Document(owner, file.kind, "", file.content, "", EnrichPending, 1, file.size, false)
    && t.versions[VersionKey(file.document, 1)] == Version(file.key, "", file.content, "")
  }

  ghost predicate AllRecorded(db: Db, t: Db, owner: Uuid, files: seq<T.Upload>) {
    && (forall file :: file in files ==> file.document !in db.documents && Recorded(t, owner, file))
    && t.documents.Keys == db.documents.Keys + (set file | file in files :: file.document)
    && (forall d :: d in db.documents ==> t.documents[d] == db.documents[d])
    && (forall k :: k in db.versions ==> k in t.versions && t.versions[k] == db.versions[k])
    && (forall k :: k in db.jobIndex ==> k in t.jobIndex)
  }

  lemma OneMoreRow(db: Db, before: Db, t: Db, owner: Uuid, files: seq<T.Upload>, file: T.Upload)
    requires AllRecorded(db, before, owner, files) && file.document !in before.documents
    requires VersionKey(file.document, 1) !in before.versions
    requires Effects.VersionRows(before, t, file.document,
                                 Document(owner, file.kind, "", file.content, "", EnrichPending, 1, file.size, false),
                                 Version(file.key, "", file.content, ""), file.job, Enrich)
    ensures AllRecorded(db, t, owner, files + [file])
  {
    forall other | other in files ensures Recorded(t, owner, other) {
      assert Recorded(before, owner, other);
    }
  }

  lemma OneMoreRecorded(db: Db, before: Db, t: Db, owner: Uuid, files: seq<T.Upload>, n: nat)
    requires |files| == n + 1 && AllRecorded(db, before, owner, files[..n]) && files[n].kind in {Image, File}
    requires T.Begin(before, T.PersistFile(before, owner, files[n])) == Some(t)
    ensures AllRecorded(db, t, owner, files)
  {
    Effects.FileIsRecorded(before, owner, files[n]);
    OneMoreRow(db, before, t, owner, files[..n], files[n]);
    assert files == files[..n] + [files[n]];
  }

  /** Every file of an upload is recorded, and no document that was there is changed. */
  lemma {:induction false} FilesAreRecorded(db: Db, owner: Uuid, files: seq<T.Upload>)
    requires forall file :: file in files ==> file.kind in {Image, File}
    requires T.PersistFiles(db, owner, files).Some?
    ensures AllRecorded(db, T.PersistFiles(db, owner, files).value, owner, files)
  {
    if files != [] {
      var n := |files| - 1;
      FilesAreRecorded(db, owner, files[..n]);
      var before := T.PersistFiles(db, owner, files[..n]).value;
      OneMoreRecorded(db, before, T.PersistFiles(db, owner, files).value, owner, files, n);
    }
  }

  /** The deletion of a document gives its size back, to its owner alone. */
  lemma DeletionFreesSpace(db: Db, owner: Uuid, d: Uuid, other: Uuid)
    requires T.Delete(db, owner, d).Some?
    ensures var t := T.Delete(db, owner, d).value;
            Total(LiveSizes(t.documents, other)) ==
            Total(LiveSizes(db.documents, other)) - if other == owner then db.documents[d].fileSize else 0
  {
    var t := T.Delete(db, owner, d).value;
    if other == owner {
      assert LiveSizes(t.documents, owner) == LiveSizes(db.documents, owner) - {d};
      TotalWithout(LiveSizes(db.documents, owner), d);
    } else {
      assert LiveSizes(t.documents, other) == LiveSizes(db.documents, other);
    }
  }

  /** After a successful upload the live documents of the account are within its limit. */
  lemma {:induction false} UploadsAddUp(db: Db, owner: Uuid, files: seq<T.Upload>)
    requires T.PersistFiles(db, owner, files).Some?
    ensures var after := T.PersistFiles(db, owner, files).value;
            && after.accounts == db.accounts
            && Total(LiveSizes(after.documents, owner)) == Total(LiveSizes(db.documents, owner)) + Addition(files)
  {
    if files != [] {
      var n := |files| - 1;
      UploadsAddUp(db, owner, files[..n]);
      var before := T.PersistFiles(db, owner, files[..n]).value;
      var after := T.PersistFiles(db, owner, files).value;
      var file := files[n];
      OneUploadAdds(before, owner, file);
    }
  }

  lemma OneUploadAdds(db: Db, owner: Uuid, file: T.Upload)
    requires T.Begin(db, T.PersistFile(db, owner, file)).Some?
    ensures var after := T.Begin(db, T.PersistFile(db, owner, file)).value;
            && after.accounts == db.accounts
            && Total(LiveSizes(after.documents, owner)) == Total(LiveSizes(db.documents, owner)) + file.size
  {
    var after := T.Begin(db, T.PersistFile(db, owner, file)).value;
    assert LiveSizes(after.documents, owner) == LiveSizes(db.documents, owner)[file.document := file.size];
    TotalWith(LiveSizes(db.documents, owner), file.document, file.size);
  }

  lemma UploadStaysWithinLimit(db: Db, owner: Uuid, files: seq<T.Upload>)
    requires Fits(db, owner, files) && T.PersistFiles(db, owner, files).Some?
    ensures var after := T.PersistFiles(db, owner, files).value;
            && owner in after.accounts
            && Total(LiveSizes(after.documents, owner)) <= Limit(after.accounts[owner].role, after.accounts[owner].plan)
  {
    UploadsAddUp(db, owner, files);
  }
}
