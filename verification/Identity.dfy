/** The withdrawal transaction of internal/identity/service.go, over the database and the challenges. */
module Identity {
  import opened Schema
  import opened Tables
  import C = Challenges
  import T = Transactions

  class Service {
    const db: Database
    const challenges: C.ChallengeTable

    constructor (db: Database, challenges: C.ChallengeTable)
      ensures this.db == db && this.challenges == challenges
    {
      this.db, this.challenges := db, challenges;
    }

    method DeleteChallengesByEmail(email: string)
      modifies challenges`rows
      ensures challenges.rows == map id | id in old(challenges.rows) && old(challenges.rows)[id].email != email :: old(challenges.rows)[id]
    {
      challenges.rows := map id | id in challenges.rows && challenges.rows[id].email != email :: challenges.rows[id];
    }

    /** The account and its documents are deleted and every cleanup queued, if the account was active. The
        second statement schedules every document of the account, so it may run after the deletion. */
    method DeleteAccount(a: Uuid) returns (ok: bool)
      modifies db
      ensures ok <==> old(db.Snapshot()).ActiveAccount(a)
      ensures db.Snapshot() == T.Withdraw(old(db.Snapshot()), a).GetOr(old(db.Snapshot()))
    {
      var affected := db.SoftDeleteAccount(a);
      if affected != 1 { return false; }
      ghost var documents := db.documents;
      db.SoftDeleteAccountDocuments(a);
      db.ScheduleAccountArtifactCleanup(a);
      SameOwners(documents, old(db.cleanup), a);
      ok := true;
    }

    /** The challenge is consumed, the account and its documents deleted and every cleanup queued
        together, or nothing is. */
    method Withdraw(a: Uuid, challenge: Uuid, email: string) returns (ok: bool)
      modifies db, challenges`rows
      ensures ok <==> C.Consumable(old(challenges.rows), challenge, challenges.now) && old(db.Snapshot()).ActiveAccount(a)
      ensures db.Snapshot() == if ok then T.Withdraw(old(db.Snapshot()), a).value else old(db.Snapshot())
      ensures challenges.rows == if ok then C.AfterEffect(C.Consumed(old(challenges.rows), challenge), C.Token(challenge, email, C.Withdrawal))
                                 else old(challenges.rows)
    {
      var before := challenges.rows;
      var affected := challenges.ConsumeChallenge(challenge);
      if affected != 1 { return false; }
      ok := DeleteAccount(a);
      if ok {
        DeleteChallengesByEmail(email);
      } else {
        challenges.rows := before;
      }
    }
  }

  lemma SameOwners(documents: map<Uuid, Document>, cleanup: map<Uuid, CleanupJob>, a: Uuid)
    ensures T.RequeueOwned(T.SoftDeleteOwned(documents, a), cleanup, a) == T.RequeueOwned(documents, cleanup, a)
  {
  }
}
