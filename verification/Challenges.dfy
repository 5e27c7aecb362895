/** Verification challenges (internal/identity/service.go, internal/dbgen/challenges.sql.go). Verify
    and complete calls are not transactions as a whole: their statements interleave freely. Codes
    stand for their keyed hashes, tokens for their signatures. */
module Challenges {
  import opened Schema

  const MAX_ATTEMPTS := 5

  datatype Purpose = Signup | PasswordReset | Withdrawal

  datatype Challenge = Challenge(
    email: string, purpose: Purpose, code: string, attempts: nat, maxAttempts: nat, expiresAt: nat,
    verified: bool, consumed: bool)

  type Rows = map<Uuid, Challenge>

  // ----- the statements -----

  predicate Open(rows: Rows, id: Uuid, now: nat) {
    id in rows && !rows[id].consumed && !rows[id].verified && rows[id].expiresAt > now
  }

  predicate Countable(rows: Rows, id: Uuid, now: nat) { Open(rows, id, now) && rows[id].attempts < rows[id].maxAttempts }

  function Incremented(rows: Rows, id: Uuid): Rows
    requires id in rows
  {
    rows[id := rows[id].(attempts := rows[id].attempts + 1)]
  }

  predicate Markable(rows: Rows, id: Uuid, now: nat) { Open(rows, id, now) && rows[id].attempts <= rows[id].maxAttempts }

  function Marked(rows: Rows, id: Uuid): Rows
    requires id in rows
  {
    rows[id := rows[id].(verified := true)]
  }

  predicate Consumable(rows: Rows, id: Uuid, now: nat) {
    id in rows && rows[id].verified && !rows[id].consumed && rows[id].expiresAt > now
  }

  function Consumed(rows: Rows, id: Uuid): Rows
    requires id in rows
  {
    rows[id := rows[id].(consumed := true)]
  }

  predicate Matches(row: Challenge, email: string, purpose: Purpose, code: string) {
    row.email == email && row.purpose == purpose && row.code == code
  }

  class ChallengeTable {
    var rows: Rows
    var now: nat

    constructor ()
      ensures rows == map[] && now == 0
    {
      rows, now := map[], 0;
    }

    method IncrementChallengeAttempt(id: Uuid) returns (row: Option<Challenge>)
      modifies `rows
      ensures row.Some? <==> Countable(old(rows), id, now)
      ensures row.Some? <==>
                && id in old(rows) && !old(rows)[id].consumed && !old(rows)[id].verified
                && now < old(rows)[id].expiresAt && old(rows)[id].attempts < old(rows)[id].maxAttempts
      ensures rows == if row.Some? then Incremented(old(rows), id) else old(rows)
      ensures row.Some? ==> row.value == rows[id]
    {
      row := None;
      if id in rows && !rows[id].consumed && !rows[id].verified && rows[id].expiresAt > now
         && rows[id].attempts < rows[id].maxAttempts {
        rows := rows[id := rows[id].(attempts := rows[id].attempts + 1)];
        row := Some(rows[id]);
      }
    }

    method MarkChallengeVerified(id: Uuid) returns (affected: nat)
      modifies `rows
      ensures affected == if Markable(old(rows), id, now) then 1 else 0
      ensures affected == 1 <==>
                && id in old(rows) && !old(rows)[id].consumed && !old(rows)[id].verified
                && now < old(rows)[id].expiresAt && old(rows)[id].attempts <= old(rows)[id].maxAttempts
      ensures rows == if affected == 1 then Marked(old(rows), id) else old(rows)
    {
      affected := 0;
      if id in rows && !rows[id].verified && !rows[id].consumed && rows[id].expiresAt > now
         && rows[id].attempts <= rows[id].maxAttempts {
        rows, affected := rows[id := rows[id].(verified := true)], 1;
      }
    }

    method ConsumeChallenge(id: Uuid) returns (affected: nat)
      modifies `rows
      ensures affected == if Consumable(old(rows), id, now) then 1 else 0
      ensures affected == 1 <==>
                id in old(rows) && old(rows)[id].verified && !old(rows)[id].consumed && now < old(rows)[id].expiresAt
      ensures rows == if affected == 1 then Consumed(old(rows), id) else old(rows)
    {
      affected := 0;
      if id in rows && rows[id].verified && !rows[id].consumed && rows[id].expiresAt > now {
        rows, affected := rows[id := rows[id].(consumed := true)], 1;
      }
    }

    /** verifyCode on a challenge it has resolved, uninterrupted: a wrong code costs an attempt and
        nothing else, a right one also verifies. True stands for a verification token. */
    method VerifyCode(id: Uuid, email: string, purpose: Purpose, code: string) returns (token: bool)
      modifies `rows
      ensures var open := id in old(rows) && !old(rows)[id].consumed && !old(rows)[id].verified
                          && now < old(rows)[id].expiresAt && old(rows)[id].attempts < old(rows)[id].maxAttempts;
              && (token <==> open && old(rows)[id].code == code && old(rows)[id].email == email
                             && old(rows)[id].purpose == purpose)
              && (!open ==> rows == old(rows))
              && (open ==> rows == old(rows)[id := old(rows)[id].(attempts := old(rows)[id].attempts + 1, verified := token)])
    {
      var row := IncrementChallengeAttempt(id);
      if row.None? || !Matches(row.value, email, purpose, code) { return false; }
      var affected := MarkChallengeVerified(id);
      token := affected == 1;
    }
  }

  // ----- all requests together -----

  datatype Token = Token(challenge: Uuid, email: string, purpose: Purpose)

  /** Where a request stands between its statements. */
  datatype Pending =
    | Compared(token: Token)  // the code was right; the mark is still to come
    | Verified(token: Token)  // the challenge is marked; the token is still to come
    | Resolved(token: Token)  // a verified challenge was found; the transaction is still to come

  datatype World = World(
    now: nat,
    rows: Rows,
    pending: map<nat, Pending>,
    created: map<Uuid, Token>,       // what every challenge ever created is for
    comparisons: multiset<Uuid>,     // codes compared, by challenge
    verifications: multiset<Token>,  // challenges marked as verified, for the email and purpose compared
    tokens: multiset<Token>,         // tokens issued
    consumptions: multiset<Uuid>,    // committed transactions that consumed the challenge
    effects: multiset<Token>)        // sign-ups, resets and withdrawals committed on its strength

  const NEW_WORLD :=
    World(0, map[], map[], map[], multiset{}, multiset{}, multiset{}, multiset{}, multiset{})

  /** A statement without an answer has been carried out, and the request sees an error or is gone. */
  datatype Step =
    | Tick(seconds: nat)
    | Request(id: Uuid, email: string, purpose: Purpose, code: string, ttl: nat)
    | Compare(request: nat, id: Uuid, email: string, purpose: Purpose, code: string, answered: bool)
    | Mark(request: nat, answered: bool)
    | Issue(request: nat)
    | Present(request: nat, token: Token)
    | FindLatest(request: nat, id: Uuid)
    | Complete(request: nat, succeeds: bool)
    | Drop(request: nat)
    | Purge(gone: set<Uuid>)

  function DoCompare(w: World, step: Step): World
    requires step.Compare?
  {
    if !Countable(w.rows, step.id, w.now) then w
    else
      var w1 := w.(rows := Incremented(w.rows, step.id));
      if !step.answered then w1
      else
        var w2 := w1.(comparisons := w.comparisons + multiset{step.id});
        if !Matches(w.rows[step.id], step.email, step.purpose, step.code) then w2
        else w2.(pending := w.pending[step.request := Compared(Token(step.id, step.email, step.purpose))])
  }

  function DoMark(w: World, request: nat, answered: bool): World
    requires request in w.pending
  {
    var token := w.pending[request].token;
    if !Markable(w.rows, token.challenge, w.now) then w.(pending := w.pending - {request})
    else
      w.(pending := if answered then w.pending[request := Verified(token)] else w.pending - {request},
         rows := Marked(w.rows, token.challenge),
         verifications := w.verifications + multiset{token})
  }

  function DoIssue(w: World, request: nat): World
    requires request in w.pending
  {
    w.(pending := w.pending - {request}, tokens := w.tokens + multiset{w.pending[request].token})
  }

  /** A withdrawal deletes every challenge of its email in the same transaction. */
  function AfterEffect(rows: Rows, token: Token): Rows {
    if token.purpose != Withdrawal then rows else map id | id in rows && rows[id].email != token.email :: rows[id]
  }

  /** The transaction of Signup, ResetPassword or Withdraw. Without the effect it rolls back. */
  function DoComplete(w: World, request: nat, succeeds: bool): World
    requires request in w.pending
  {
    var token := w.pending[request].token;
    var w1 := w.(pending := w.pending - {request});
    if !Consumable(w.rows, token.challenge, w.now) || !succeeds then w1
    else
      w1.(rows := AfterEffect(Consumed(w.rows, token.challenge), token),
          consumptions := w.consumptions + multiset{token.challenge},
          effects := w.effects + multiset{token})
  }

  /** A challenge is found by a token that was issued for it, or without one as the latest verified
      challenge of an email and a purpose. */
  ghost predicate Next(w: World, step: Step, v: World) {
    match step
    case Tick(seconds) => v == w.(now := w.now + seconds)
    case Request(id, email, purpose, code, ttl) =>
      && id !in w.created
      && v == w.(rows := w.rows[id := Challenge(email, purpose, code, 0, MAX_ATTEMPTS, w.now + ttl, false, false)],
                 created := w.created[id := Token(id, email, purpose)])
    case Compare(request, _, _, _, _, _) => request !in w.pending && v == DoCompare(w, step)
    case Mark(request, answered) =>
      request in w.pending && w.pending[request].Compared? && v == DoMark(w, request, answered)
    case Issue(request) => request in w.pending && w.pending[request].Verified? && v == DoIssue(w, request)
    case Present(request, token) =>
      request !in w.pending && token in w.tokens && v == w.(pending := w.pending[request := Resolved(token)])
    case FindLatest(request, id) =>
      && request !in w.pending && Consumable(w.rows, id, w.now)
      && v == w.(pending := w.pending[request := Resolved(Token(id, w.rows[id].email, w.rows[id].purpose))])
    case Complete(request, succeeds) =>
      request in w.pending && w.pending[request].Resolved? && v == DoComplete(w, request, succeeds)
    case Drop(request) => v == w.(pending := w.pending - {request})
    case Purge(gone) => v == w.(rows := w.rows - gone)
  }

  ghost predicate IsRun(worlds: seq<World>, steps: seq<Step>) {
    && |worlds| == |steps| + 1 && worlds[0] == NEW_WORLD
    && forall i {:trigger steps[i]} :: 0 <= i < |steps| ==> Next(worlds[i], steps[i], worlds[i + 1])
  }

  // ----- what holds in every world -----

  /** A row counts its own attempts, verifications and consumptions. */
  ghost predicate RowOk(w: World, id: Uuid)
    requires id in w.rows
  {
    var row := w.rows[id];
    && id in w.created && w.created[id] == Token(id, row.email, row.purpose) && row.maxAttempts == MAX_ATTEMPTS
    && w.comparisons[id] <= row.attempts <= MAX_ATTEMPTS
    && w.verifications[w.created[id]] == (if row.verified then 1 else 0)
    && w.consumptions[id] == (if row.consumed then 1 else 0)
    && (row.consumed ==> row.verified)
  }

  /** Also for challenges that are deleted by now. */
  ghost predicate HistoryOk(w: World, id: Uuid) {
    && (id !in w.created ==> w.comparisons[id] == 0 && w.consumptions[id] == 0)
    && (id in w.created ==>
          && w.created[id].challenge == id
          && w.comparisons[id] <= MAX_ATTEMPTS
          && w.tokens[w.created[id]] <= w.verifications[w.created[id]] <= 1
          && w.consumptions[id] == w.effects[w.created[id]] <= w.verifications[w.created[id]])
  }

  ghost predicate ForItsOwn(w: World, token: Token) {
    token.challenge in w.created && w.created[token.challenge] == token
  }

  ghost predicate Inv(w: World) {
    && (forall id :: id in w.rows ==> RowOk(w, id))
    && (forall id :: HistoryOk(w, id))
    && PendingOk(w) && OneIssuer(w.pending)
    && (forall token :: token in w.verifications || token in w.tokens || token in w.effects ==> ForItsOwn(w, token))
  }

  /** What a request has found out; the token of one that has marked its challenge is still to come. */
  ghost predicate RequestOk(w: World, pending: Pending) {
    && ForItsOwn(w, pending.token)
    && (!pending.Compared? ==> pending.token in w.verifications)
    && (pending.Verified? ==> pending.token !in w.tokens)
  }

  ghost predicate PendingOk(w: World) {
    forall r :: r in w.pending ==> RequestOk(w, w.pending[r])
  }

  /** No two requests have marked the same challenge. */
  ghost predicate OneIssuer(pending: map<nat, Pending>) {
    forall r, q :: r in pending && q in pending && r != q && pending[r].Verified? ==> pending[q] != pending[r]
  }

  lemma IssuersKept(pending: map<nat, Pending>, after: map<nat, Pending>)
    requires OneIssuer(pending)
    requires forall r :: r in after && after[r].Verified? ==> r in pending && after[r] == pending[r]
    ensures OneIssuer(after)
  {
  }

  /** What a step does to one challenge decides about that challenge alone. */
  lemma OthersKept(w: World, v: World, id: Uuid)
    requires Inv(w) && PendingOk(v) && OneIssuer(v.pending)
    requires forall token :: token in v.verifications || token in v.tokens || token in v.effects ==> ForItsOwn(v, token)
    requires forall x :: x != id ==> (x in v.rows ==> x in w.rows && v.rows[x] == w.rows[x])
    requires forall x :: x != id ==> (x in v.created <==> x in w.created) && (x in w.created ==> v.created[x] == w.created[x])
    requires forall x :: x != id ==> v.comparisons[x] == w.comparisons[x] && v.consumptions[x] == w.consumptions[x]
    requires forall token: Token :: token.challenge != id ==>
               && v.verifications[token] == w.verifications[token]
               && v.tokens[token] == w.tokens[token] && v.effects[token] == w.effects[token]
    requires HistoryOk(v, id) && (id in v.rows ==> RowOk(v, id))
    ensures Inv(v)
  {
    forall x ensures HistoryOk(v, x) {
      assert HistoryOk(w, x);
    }
    forall x | x in v.rows ensures RowOk(v, x) {
      assert x != id ==> RowOk(w, x) && HistoryOk(w, x);
    }
  }

  lemma RequestKeeps(w: World, step: Step, v: World)
    requires Inv(w) && step.Request? && Next(w, step, v)
    ensures Inv(v)
  {
    var token := v.created[step.id];
    assert HistoryOk(w, step.id);
    assert token !in w.verifications && token !in w.tokens && token !in w.effects;
    assert PendingOk(v) by {
      forall r | r in v.pending ensures RequestOk(v, v.pending[r]) {
        assert RequestOk(w, w.pending[r]);
      }
    }
    OthersKept(w, v, step.id);
  }

  lemma CompareKeeps(w: World, step: Step, v: World)
    requires Inv(w) && step.Compare? && Next(w, step, v)
    ensures Inv(v)
  {
    if Countable(w.rows, step.id, w.now) {
      ComparedPending(w, step, v);
      ComparedRow(w, step, v);
      ComparedElsewhere(w, step, v);
      OthersKept(w, v, step.id);
    }
  }

  lemma ComparedPending(w: World, step: Step, v: World)
    requires Inv(w) && step.Compare? && Next(w, step, v) && Countable(w.rows, step.id, w.now)
    ensures PendingOk(v) && OneIssuer(v.pending)
  {
    assert RowOk(w, step.id);
    IssuersKept(w.pending, v.pending);
    forall r | r in v.pending ensures RequestOk(v, v.pending[r]) {
      assert r in w.pending ==> RequestOk(w, w.pending[r]);
    }
  }

  lemma ComparedElsewhere(w: World, step: Step, v: World)
    requires step.Compare? && v == DoCompare(w, step) && Countable(w.rows, step.id, w.now)
    ensures v.created == w.created && v.verifications == w.verifications && v.tokens == w.tokens
    ensures v.consumptions == w.consumptions && v.effects == w.effects
    ensures forall x :: x != step.id ==> v.comparisons[x] == w.comparisons[x]
    ensures forall x :: x != step.id && x in v.rows ==> x in w.rows && v.rows[x] == w.rows[x]
  {
  }

  lemma ComparedRow(w: World, step: Step, v: World)
    requires step.Compare? && v == DoCompare(w, step) && Countable(w.rows, step.id, w.now)
    requires RowOk(w, step.id) && HistoryOk(w, step.id)
    ensures RowOk(v, step.id) && HistoryOk(v, step.id)
  {
  }

  /** The mark finds the challenge unverified, so no other request has marked it. */
  lemma MarkedPending(w: World, request: nat, answered: bool)
    requires Inv(w) && request in w.pending && w.pending[request].Compared?
    requires Markable(w.rows, w.pending[request].token.challenge, w.now)
    ensures var v := DoMark(w, request, answered); PendingOk(v) && OneIssuer(v.pending)
  {
    var v, token := DoMark(w, request, answered), w.pending[request].token;
    assert RequestOk(w, w.pending[request]) && RowOk(w, token.challenge) && HistoryOk(w, token.challenge);
    assert token !in w.verifications && token !in w.tokens;
    forall r | r in v.pending ensures RequestOk(v, v.pending[r]) {
      assert r in w.pending && RequestOk(w, w.pending[r]);
    }
    forall r, q | r in v.pending && q in v.pending && r != q && v.pending[r].Verified? ensures v.pending[q] != v.pending[r] {
      assert RequestOk(w, w.pending[r]) && RequestOk(w, w.pending[q]);
    }
  }

  lemma MarkedRow(w: World, request: nat, answered: bool)
    requires request in w.pending
    requires var id := w.pending[request].token.challenge;
             Markable(w.rows, id, w.now) && RowOk(w, id) && HistoryOk(w, id) && ForItsOwn(w, w.pending[request].token)
    ensures var v, id := DoMark(w, request, answered), w.pending[request].token.challenge;
            RowOk(v, id) && HistoryOk(v, id)
  {
  }

  lemma MarkKeeps(w: World, step: Step, v: World)
    requires Inv(w) && step.Mark? && Next(w, step, v)
    ensures Inv(v)
  {
    var id := w.pending[step.request].token.challenge;
    if Markable(w.rows, id, w.now) {
      MarkedPending(w, step.request, step.answered);
      assert RequestOk(w, w.pending[step.request]) && RowOk(w, id) && HistoryOk(w, id);
      MarkedRow(w, step.request, step.answered);
      OthersKept(w, v, id);
    } else {
      RowsStay(w, v);
    }
  }

  lemma IssueKeeps(w: World, step: Step, v: World)
    requires Inv(w) && step.Issue? && Next(w, step, v)
    ensures Inv(v)
  {
    var token := w.pending[step.request].token;
    var id := token.challenge;
    assert RequestOk(w, w.pending[step.request]) && HistoryOk(w, id);
    assert w.tokens[token] == 0 && w.verifications[token] == 1;
    assert id in w.rows ==> RowOk(w, id);
    IssuersKept(w.pending, v.pending);
    forall r | r in v.pending ensures RequestOk(v, v.pending[r]) {
      assert RequestOk(w, w.pending[r]);
      assert v.pending[r].Verified? ==> w.pending[r] != w.pending[step.request];
    }
    OthersKept(w, v, id);
  }

  /** A committed effect: the challenge is consumed, its row perhaps deleted with it. */
  lemma EffectKeeps(w: World, v: World, token: Token)
    requires Inv(w) && Consumable(w.rows, token.challenge, w.now) && ForItsOwn(w, token)
    requires v == w.(rows := v.rows, pending := v.pending, consumptions := w.consumptions + multiset{token.challenge},
                     effects := w.effects + multiset{token})
    requires forall x :: x in v.rows ==> x in w.rows && v.rows[x] == Consumed(w.rows, token.challenge)[x]
    requires forall r :: r in v.pending ==> r in w.pending && v.pending[r] == w.pending[r]
    ensures Inv(v)
  {
    var id := token.challenge;
    assert RowOk(w, id) && HistoryOk(w, id);
    assert HistoryOk(v, id);
    IssuersKept(w.pending, v.pending);
    forall r | r in v.pending ensures RequestOk(v, v.pending[r]) {
      assert RequestOk(w, w.pending[r]);
    }
    OthersKept(w, v, id);
  }

  lemma CompleteKeeps(w: World, step: Step, v: World)
    requires Inv(w) && step.Complete? && Next(w, step, v)
    ensures Inv(v)
  {
    var token := w.pending[step.request].token;
    assert RequestOk(w, w.pending[step.request]);
    if Consumable(w.rows, token.challenge, w.now) && step.succeeds {
      EffectKeeps(w, v, token);
    } else {
      RowsStay(w, v);
    }
  }

  /** Rows may be deleted and requests dropped. */
  lemma RowsStay(w: World, v: World)
    requires Inv(w) && v == w.(now := v.now, rows := v.rows, pending := v.pending)
    requires forall x :: x in v.rows ==> x in w.rows && v.rows[x] == w.rows[x]
    requires forall r :: r in v.pending && (r !in w.pending || v.pending[r] != w.pending[r]) ==>
               !v.pending[r].Verified? && RequestOk(w, v.pending[r])
    ensures Inv(v)
  {
    IssuersKept(w.pending, v.pending);
    forall r | r in v.pending ensures RequestOk(v, v.pending[r]) {
      assert r in w.pending && v.pending[r] == w.pending[r] ==> RequestOk(w, w.pending[r]);
    }
    forall x ensures HistoryOk(v, x) {
      assert HistoryOk(w, x);
    }
    forall x | x in v.rows ensures RowOk(v, x) {
      assert RowOk(w, x);
    }
  }

  /** A request that has found a verified challenge, by its token or as the latest one. */
  lemma ResolvedKeeps(w: World, v: World, request: nat, token: Token)
    requires Inv(w) && token in w.verifications && v == w.(pending := w.pending[request := Resolved(token)])
    ensures Inv(v)
  {
    RowsStay(w, v);
  }

  lemma PresentKeeps(w: World, step: Step, v: World)
    requires Inv(w) && step.Present? && Next(w, step, v)
    ensures Inv(v)
  {
    assert ForItsOwn(w, step.token) && HistoryOk(w, step.token.challenge);
    ResolvedKeeps(w, v, step.request, step.token);
  }

  lemma FindKeeps(w: World, step: Step, v: World)
    requires Inv(w) && step.FindLatest? && Next(w, step, v)
    ensures Inv(v)
  {
    assert RowOk(w, step.id);
    ResolvedKeeps(w, v, step.request, w.created[step.id]);
  }

  lemma PassiveKeeps(w: World, step: Step, v: World)
    requires Inv(w) && (step.Tick? || step.Drop? || step.Purge?) && Next(w, step, v)
    ensures Inv(v)
  {
    RowsStay(w, v);
  }

  lemma NextKeeps(w: World, step: Step, v: World)
    requires Inv(w) && Next(w, step, v)
    ensures Inv(v)
  {
    match step
    case Request(_, _, _, _, _) => RequestKeeps(w, step, v);
    case Compare(_, _, _, _, _, _) => CompareKeeps(w, step, v);
    case Mark(_, _) => MarkKeeps(w, step, v);
    case Issue(_) => IssueKeeps(w, step, v);
    case Present(_, _) => PresentKeeps(w, step, v);
    case FindLatest(_, _) => FindKeeps(w, step, v);
    case Complete(_, _) => CompleteKeeps(w, step, v);
    case _ => PassiveKeeps(w, step, v);
  }

  lemma {:induction false} RunKeeps(worlds: seq<World>, steps: seq<Step>, n: nat)
    requires IsRun(worlds, steps) && n < |worlds|
    ensures Inv(worlds[n])
    decreases n
  {
    if n > 0 {
      RunKeeps(worlds, steps, n - 1);
      assert steps[n - 1] == steps[n - 1];
      NextKeeps(worlds[n - 1], steps[n - 1], worlds[n]);
    }
  }

  /** Over every run, however verify and complete calls interleave and whatever answers are lost: at most
      five comparisons for a challenge, at most one verification, at most one token and only if verified,
      and as many consumptions as effects, which is one at most and only if verified. Whatever is
      recorded is for the email and purpose that the challenge was created for. */
  lemma ChallengeLifecycle(worlds: seq<World>, steps: seq<Step>, n: nat, id: Uuid)
    requires IsRun(worlds, steps) && n < |worlds|
    ensures var w := worlds[n];
            && (forall token: Token :: token.challenge == id
                                       && (token in w.verifications || token in w.tokens || token in w.effects) ==>
                  id in w.created && token == w.created[id])
            && (id !in w.created ==> w.comparisons[id] == w.consumptions[id] == 0)
            && (id in w.created ==>
                  var own := w.created[id];
                  && w.comparisons[id] <= 5
                  && w.tokens[own] <= w.verifications[own] <= 1
                  && w.consumptions[id] == w.effects[own] <= w.verifications[own])
  {
    RunKeeps(worlds, steps, n);
    assert HistoryOk(worlds[n], id);
  }

  /** A step that consumes a challenge is the transaction of a request; the challenge has been verified
      before, once, for the email and purpose of the request, and has not been consumed before. */
  lemma ConsumedOnceVerified(worlds: seq<World>, steps: seq<Step>, n: nat, id: Uuid)
    requires IsRun(worlds, steps) && n < |steps|
    requires worlds[n + 1].consumptions[id] != worlds[n].consumptions[id]
    ensures steps[n].Complete? && steps[n].request in worlds[n].pending
    ensures var w, token := worlds[n], worlds[n].pending[steps[n].request].token;
            && token.challenge == id && w.verifications[token] == 1
            && w.consumptions[id] == 0 == w.effects[token] && worlds[n + 1].effects[token] == 1
  {
    RunKeeps(worlds, steps, n);
    assert steps[n] == steps[n];
    ConsumedBy(worlds[n], steps[n], worlds[n + 1], id);
  }

  lemma ConsumedBy(w: World, step: Step, v: World, id: Uuid)
    requires Inv(w) && Next(w, step, v) && v.consumptions[id] != w.consumptions[id]
    ensures step.Complete? && step.request in w.pending
    ensures var token := w.pending[step.request].token;
            && token.challenge == id && w.verifications[token] == 1
            && w.consumptions[id] == 0 == w.effects[token] && v.effects[token] == 1
  {
    OnlyCompleteConsumes(w, step, v);
    assert RequestOk(w, w.pending[step.request]) && RowOk(w, id) && HistoryOk(w, id);
  }

  lemma OnlyCompleteConsumes(w: World, step: Step, v: World)
    requires Next(w, step, v) && v.consumptions != w.consumptions
    ensures step.Complete?
  {
  }

  // ----- what a verification rests on -----

  /** Step r has created the challenge that the row is of. */
  ghost predicate CreatedBy(worlds: seq<World>, steps: seq<Step>, r: nat, id: Uuid, row: Challenge)
    requires r < |steps| && r < |worlds|
  {
    && steps[r].Request? && steps[r].id == id
    && steps[r].email == row.email && steps[r].purpose == row.purpose && steps[r].code == row.code
    && worlds[r].now + steps[r].ttl == row.expiresAt
  }

  ghost predicate SameChallenge(before: Rows, after: Rows, id: Uuid) {
    id in after ==>
      && id in before
      && after[id].email == before[id].email && after[id].purpose == before[id].purpose && after[id].code == before[id].code
      && after[id].expiresAt == before[id].expiresAt
  }

  lemma CompareKeepsChallenge(w: World, step: Step, id: Uuid)
    requires step.Compare?
    ensures SameChallenge(w.rows, DoCompare(w, step).rows, id)
  {
  }

  lemma CompleteKeepsChallenge(w: World, request: nat, succeeds: bool, id: Uuid)
    requires request in w.pending
    ensures SameChallenge(w.rows, DoComplete(w, request, succeeds).rows, id)
  {
  }

  lemma RowStays(w: World, step: Step, v: World, id: Uuid)
    requires Next(w, step, v) && !(step.Request? && step.id == id)
    ensures SameChallenge(w.rows, v.rows, id)
  {
    match step
    case Compare(_, _, _, _, _, _) => CompareKeepsChallenge(w, step, id);
    case Complete(request, succeeds) => CompleteKeepsChallenge(w, request, succeeds, id);
    case _ =>
  }

  lemma {:induction false} RowCreated(worlds: seq<World>, steps: seq<Step>, n: nat, id: Uuid) returns (r: nat)
    requires IsRun(worlds, steps) && n < |worlds| && id in worlds[n].rows
    ensures r < n && CreatedBy(worlds, steps, r, id, worlds[n].rows[id])
    decreases n
  {
    assert Next(worlds[n - 1], steps[n - 1], worlds[n - 1 + 1]);
    r := n - 1;
    if !(steps[n - 1].Request? && steps[n - 1].id == id) {
      RowStays(worlds[n - 1], steps[n - 1], worlds[n], id);
      r := RowCreated(worlds, steps, n - 1, id);
    }
  }

  /** Step c has compared the code of the challenge that step r created, for its email and purpose. */
  ghost predicate ComparedRight(steps: seq<Step>, r: nat, c: nat, token: Token)
    requires r < c < |steps|
  {
    && steps[r].Request? && steps[c].Compare? && steps[r].id == steps[c].id == token.challenge
    && steps[c].code == steps[r].code
    && steps[c].email == steps[r].email == token.email && steps[c].purpose == steps[r].purpose == token.purpose
  }

  lemma PendingStays(w: World, step: Step, v: World, q: nat)
    requires Next(w, step, v) && q in v.pending && v.pending[q].Compared?
    requires !(q in w.pending && w.pending[q] == v.pending[q])
    ensures step.Compare? && step.id in w.rows && v.pending[q].token == Token(step.id, step.email, step.purpose)
    ensures w.rows[step.id].code == step.code && w.rows[step.id].email == step.email && w.rows[step.id].purpose == step.purpose
  {
  }

  lemma {:induction false} PendingCompared(worlds: seq<World>, steps: seq<Step>, n: nat, q: nat) returns (r: nat, c: nat)
    requires IsRun(worlds, steps) && n < |worlds| && q in worlds[n].pending && worlds[n].pending[q].Compared?
    ensures r < c < n && ComparedRight(steps, r, c, worlds[n].pending[q].token)
    decreases n
  {
    assert Next(worlds[n - 1], steps[n - 1], worlds[n - 1 + 1]);
    if q in worlds[n - 1].pending && worlds[n - 1].pending[q] == worlds[n].pending[q] {
      r, c := PendingCompared(worlds, steps, n - 1, q);
    } else {
      PendingStays(worlds[n - 1], steps[n - 1], worlds[n], q);
      c := n - 1;
      r := RowCreated(worlds, steps, c, steps[c].id);
    }
  }

  lemma OnlyMarksVerify(w: World, step: Step, v: World, token: Token)
    requires Next(w, step, v) && v.verifications[token] != w.verifications[token]
    ensures step.Mark? && step.request in w.pending && w.pending[step.request] == Compared(token)
    ensures token.challenge in w.rows && w.now < w.rows[token.challenge].expiresAt
  {
  }

  /** Over every run: a challenge is verified only by a request that has compared the very code, email and
      purpose that it was created with, and before it expires. */
  lemma {:induction false} VerifiedByCode(worlds: seq<World>, steps: seq<Step>, n: nat, token: Token)
    returns (r: nat, c: nat, m: nat)
    requires IsRun(worlds, steps) && n < |worlds| && token in worlds[n].verifications
    ensures r < c < m < n && ComparedRight(steps, r, c, token)
    ensures steps[m].Mark? && steps[m].request in worlds[m].pending && worlds[m].pending[steps[m].request] == Compared(token)
    ensures worlds[m].now < worlds[r].now + steps[r].ttl
    decreases n
  {
    assert Next(worlds[n - 1], steps[n - 1], worlds[n - 1 + 1]);
    if token in worlds[n - 1].verifications {
      r, c, m := VerifiedByCode(worlds, steps, n - 1, token);
    } else {
      m := n - 1;
      OnlyMarksVerify(worlds[m], steps[m], worlds[n], token);
      r, c := PendingCompared(worlds, steps, m, steps[m].request);
      var created := RowCreated(worlds, steps, m, token.challenge);
      CreatedOnce(worlds, steps, r, created, token.challenge);
    }
  }

  /** An identifier is generated once. */
  lemma CreatedOnce(worlds: seq<World>, steps: seq<Step>, i: nat, j: nat, id: Uuid)
    requires IsRun(worlds, steps) && i < |steps| && j < |steps|
    requires steps[i].Request? && steps[j].Request? && steps[i].id == id == steps[j].id
    ensures i == j
  {
    if i < j {
      StaysCreated(worlds, steps, i + 1, j, id);
    } else if j < i {
      StaysCreated(worlds, steps, j + 1, i, id);
    }
  }

  lemma {:induction false} StaysCreated(worlds: seq<World>, steps: seq<Step>, i: nat, j: nat, id: Uuid)
    requires IsRun(worlds, steps) && 0 < i <= j < |worlds| && steps[i - 1].Request? && steps[i - 1].id == id
    ensures id in worlds[j].created
    decreases j
  {
    assert Next(worlds[j - 1], steps[j - 1], worlds[j - 1 + 1]);
    if i < j {
      StaysCreated(worlds, steps, i, j - 1, id);
    }
  }

  /** The right code verifies: three statements of one request, and nothing else changes. */
  lemma RightCodeVerifies(w: World, request: nat, id: Uuid)
    requires request !in w.pending && id in w.rows && !w.rows[id].consumed && !w.rows[id].verified
    requires w.now < w.rows[id].expiresAt && w.rows[id].attempts < w.rows[id].maxAttempts
    ensures var row := w.rows[id];
            var token := Token(id, row.email, row.purpose);
            var after := w.(rows := w.rows[id := row.(attempts := row.attempts + 1, verified := true)],
                            comparisons := w.comparisons + multiset{id}, verifications := w.verifications + multiset{token},
                            tokens := w.tokens + multiset{token});
            exists u, v :: Next(w, Compare(request, id, row.email, row.purpose, row.code, true), u)
                           && Next(u, Mark(request, true), v) && Next(v, Issue(request), after)
  {
    var row := w.rows[id];
    var token := Token(id, row.email, row.purpose);
    var step := Compare(request, id, row.email, row.purpose, row.code, true);
    var u := DoCompare(w, step);
    assert Next(w, step, u);
    assert u.pending == w.pending[request := Compared(token)] && u.rows == w.rows[id := row.(attempts := row.attempts + 1)];
    var v := DoMark(u, request, true);
    assert Next(u, Mark(request, true), v);
    assert v.rows == w.rows[id := row.(attempts := row.attempts + 1, verified := true)];
    assert v.pending - {request} == w.pending;
    assert Next(v, Issue(request), DoIssue(v, request));
  }

  /** A wrong one costs an attempt, if one is left, and nothing else. */
  lemma WrongCodeCosts(w: World, step: Step, v: World)
    requires step.Compare? && Next(w, step, v) && step.id in w.rows
    requires var row := w.rows[step.id]; row.code != step.code || row.email != step.email || row.purpose != step.purpose
    ensures var row := w.rows[step.id];
            if row.consumed || row.verified || w.now >= row.expiresAt || row.attempts >= row.maxAttempts then v == w
            else v == w.(rows := w.rows[step.id := row.(attempts := row.attempts + 1)],
                         comparisons := if step.answered then w.comparisons + multiset{step.id} else w.comparisons)
  {
  }

  /** The transaction of a request that has found a verified challenge: consumed, and the effect is there. The
      challenges of a withdrawn email are deleted, and no other row changes. */
  lemma VerifiedCompletes(w: World, request: nat, token: Token)
    requires request in w.pending && w.pending[request] == Resolved(token) && token.challenge in w.rows
    requires var row := w.rows[token.challenge]; row.verified && !row.consumed && w.now < row.expiresAt
    ensures var row := w.rows[token.challenge];
            var rows := w.rows[token.challenge := row.(consumed := true)];
            exists v :: Next(w, Complete(request, true), v) && v == w.(
              rows := if token.purpose == Withdrawal then map id | id in rows && rows[id].email != token.email :: rows[id] else rows,
              pending := w.pending - {request}, consumptions := w.consumptions + multiset{token.challenge},
              effects := w.effects + multiset{token})
  {
    assert Next(w, Complete(request, true), DoComplete(w, request, true));
  }

  /** What else may happen: time passes, a mark comes too late, a token is presented, a request is gone, and old
      rows are deleted. */
  lemma OtherSteps(w: World, request: nat, token: Token, seconds: nat, gone: set<Uuid>)
    ensures Next(w, Tick(seconds), w.(now := w.now + seconds))
    ensures Next(w, Drop(request), w.(pending := w.pending - {request}))
    ensures Next(w, Purge(gone), w.(rows := w.rows - gone))
    ensures request !in w.pending && token in w.tokens ==>
              Next(w, Present(request, token), w.(pending := w.pending[request := Resolved(token)]))
    ensures request in w.pending && w.pending[request] == Compared(token)
            && (token.challenge in w.rows ==> w.rows[token.challenge].verified || w.now >= w.rows[token.challenge].expiresAt) ==>
              Next(w, Mark(request, true), w.(pending := w.pending - {request}))
  {
  }

  // ----- an effect without a token -----

  const OWN := Token(1, "a", Signup)
  const ROW := Challenge("a", Signup, "c", 0, MAX_ATTEMPTS, 9, false, false)
  const COMPARED := ROW.(attempts := 1)
  const VERIFIED := COMPARED.(verified := true)

  function W1(): World { NEW_WORLD.(rows := map[1 := ROW], created := map[1 := OWN]) }

  function W2(): World {
    W1().(rows := map[1 := COMPARED], comparisons := multiset{1}, pending := map[0 := Compared(OWN)])
  }

  function W3(): World { W2().(rows := map[1 := VERIFIED], verifications := multiset{OWN}, pending := map[]) }

  function W4(): World { W3().(pending := map[0 := Resolved(OWN)]) }

  function W5(): World {
    W3().(rows := map[1 := VERIFIED.(consumed := true)], consumptions := multiset{1}, effects := multiset{OWN})
  }

  lemma ToW1()
    ensures Next(NEW_WORLD, Request(1, "a", Signup, "c", 9), W1())
  {
  }

  lemma ToW2()
    ensures Next(W1(), Compare(0, 1, "a", Signup, "c", true), W2())
  {
  }

  lemma ToW3()
    ensures Next(W2(), Mark(0, false), W3())
  {
  }

  lemma ToW4()
    ensures Next(W3(), FindLatest(0, 1), W4())
  {
  }

  lemma ToW5()
    ensures Next(W4(), Complete(0, true), W5())
  {
  }

  /** A challenge can be consumed without a token ever having been issued: the mark has no answer, and the
      request that completes finds the challenge as the latest verified one. */
  lemma EffectWithoutToken() returns (worlds: seq<World>, steps: seq<Step>, own: Token)
    ensures IsRun(worlds, steps)
    ensures var w := worlds[|steps|]; w.effects[own] == 1 == w.verifications[own] && w.tokens[own] == 0
  {
    own := OWN;
    steps := [Request(1, "a", Signup, "c", 9), Compare(0, 1, "a", Signup, "c", true), Mark(0, false), FindLatest(0, 1),
              Complete(0, true)];
    worlds := [NEW_WORLD, W1(), W2(), W3(), W4(), W5()];
    ToW1();
    ToW2();
    ToW3();
    ToW4();
    ToW5();
  }
}
