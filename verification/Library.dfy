/** The document requests of internal/library/service.go, statement by statement. Identifiers that
    the service generates are parameters. Each method commits exactly the transaction of the same
    name in Transactions, or rolls back and changes nothing. */
module Library {
  import opened Schema
  import opened Tables
  import T = Transactions

  class Service {
    const db: Database

    constructor (db: Database)
      ensures this.db == db
    {
      this.db := db;
    }

    /** The version row, the job and, for a webpage, the outbox event of a document row just written. */
    method CreateVersionAndJob(d: Uuid, row: Document, version: Version, job: Uuid, event: Uuid) returns (ok: bool)
      requires d in db.documents && db.documents[d] == row
      modifies db
      ensures var n := T.NewVersion(d, row, version, job, event);
              && (ok <==> T.BeginVersion(old(db.Snapshot()), n).Some?)
              && (ok ==> db.Snapshot() == T.BeginVersion(old(db.Snapshot()), n).value)
    {
      var n := T.NewVersion(d, row, version, job, event);
      assert db.documents[d := row] == db.documents;
      ok := db.CreateDocumentVersion(VersionKey(d, row.currentVersion), version);
      if ok {
        ok := db.CreateIngestionJob(job, JobKey(d, row.currentVersion, n.Kind()));
      }
      if ok && n.Kind() == Scrape {
        ok := db.CreateOutboxEvent(event, n.Event());
      }
    }

    method CreateMemo(owner: Uuid, raw: string, d: Uuid, job: Uuid) returns (ok: bool)
      modifies db
      ensures var after := T.Begin(old(db.Snapshot()), T.CreateMemo(old(db.Snapshot()), owner, d, job, raw));
              && (ok <==> after.Some?)
              && db.Snapshot() == after.GetOr(old(db.Snapshot()))
    {
      var content := T.ValidMemo(raw);
      if content.None? { return false; }
      var before := db.Snapshot();
      ok := db.LockActiveAccount(owner);
      if ok {
        var row := Document(owner, Memo, "", content.value, "", EnrichPending, 1, 0, false);
        ok := db.InsertDocument(d, row);
        if ok {
          ok := CreateVersionAndJob(d, row, Version("", "", row.content, ""), job, NIL);
          InsertThenBegin(before, T.NewVersion(d, row, Version("", "", row.content, ""), job, NIL));
        }
      }
      if !ok {
        db.Restore(before);
      }
    }

    method CreateWebpage(owner: Uuid, url: string, d: Uuid, job: Uuid, event: Uuid) returns (ok: bool)
      modifies db
      ensures var after := T.Begin(old(db.Snapshot()), T.CreateWebpage(old(db.Snapshot()), owner, d, job, event, url));
              && (ok <==> after.Some?)
              && db.Snapshot() == after.GetOr(old(db.Snapshot()))
    {
      if url == "" { return false; }
      var before := db.Snapshot();
      ok := db.LockActiveAccount(owner);
      if ok {
        var row := Document(owner, Webpage, url, "", "", ScrapePending, 1, 0, false);
        ok := db.InsertDocument(d, row);
        if ok {
          ok := CreateVersionAndJob(d, row, Version("", "", row.content, ""), job, event);
          InsertThenBegin(before, T.NewVersion(d, row, Version("", "", row.content, ""), job, event));
        }
      }
      if !ok {
        db.Restore(before);
      }
    }

    method UpdateMemo(owner: Uuid, d: Uuid, raw: string, job: Uuid) returns (ok: bool)
      modifies db
      ensures var after := T.Begin(old(db.Snapshot()), T.UpdateMemo(old(db.Snapshot()), owner, d, job, raw));
              && (ok <==> after.Some?)
              && db.Snapshot() == after.GetOr(old(db.Snapshot()))
    {
      var content := T.ValidMemo(raw);
      if content.None? { return false; }
      var before := db.Snapshot();
      var row := db.UpdateMemo(owner, d, content.value);
      ok := row.Some?;
      if ok {
        ok := CreateVersionAndJob(d, row.value, Version("", "", row.value.content, ""), job, NIL);
        InsertThenBegin(before, T.NewVersion(d, row.value, Version("", "", row.value.content, ""), job, NIL));
      }
      if !ok {
        db.Restore(before);
      }
    }

    method UpdateWebpage(owner: Uuid, d: Uuid, url: string, job: Uuid, event: Uuid) returns (ok: bool)
      modifies db
      ensures var after := T.Begin(old(db.Snapshot()), T.UpdateWebpage(old(db.Snapshot()), owner, d, job, event, url));
              && (ok <==> after.Some?)
              && db.Snapshot() == after.GetOr(old(db.Snapshot()))
    {
      if url == "" { return false; }
      var before := db.Snapshot();
      var row := db.BeginWebpageRefresh(owner, d, url);
      ok := row.Some?;
      if ok {
        ok := CreateVersionAndJob(d, row.value, Version("", "", row.value.content, ""), job, event);
        InsertThenBegin(before, T.NewVersion(d, row.value, Version("", "", row.value.content, ""), job, event));
      }
      if !ok {
        db.Restore(before);
      }
    }

    method Delete(owner: Uuid, d: Uuid) returns (ok: bool)
      modifies db
      ensures var after := T.Delete(old(db.Snapshot()), owner, d);
              && (ok <==> after.Some?)
              && db.Snapshot() == after.GetOr(old(db.Snapshot()))
    {
      var affected := db.SoftDeleteDocument(owner, d);
      ok := affected == 1;
      if ok {
        db.CreateArtifactCleanupJob(d);
      }
    }
  }

  /** Beginning a version on top of the document row already written is beginning it in one go. */
  lemma InsertThenBegin(db: Db, n: T.NewVersion)
    ensures T.BeginVersion(db.(documents := db.documents[n.d := n.document]), n) == T.BeginVersion(db, n)
  {
    assert db.documents[n.d := n.document][n.d := n.document] == db.documents[n.d := n.document];
  }
}
